/** The Caddy configuration rendered from the state, as a route tree, and what it does
    with a request. */
module Routing {
  import opened Text
  import opened Model

  /** `paths` are the sockets and directories that must be safe absolute paths. */
  datatype Renderer = Renderer(paths: seq<string>, targetHost: string, aliases: seq<string>, publicRoot: string)

  datatype App = App(name: string, url: string)

  datatype Handler =
    | StripUntrusted                // drop client-sent identity and forwarding headers
    | ForwardAuth                   // ask Authelia; stop unless it allows the request
    | PortalProxy                   // Authelia's login portal
    | Launcher(apps: seq<App>, publicRoot: string)
    | Proxy(protocol: string, target: string, port: int)

  /** A `handle` block: matched by host, and for the portal also by its paths. */
  datatype Block = Block(hosts: seq<string>, portalPaths: bool, handlers: seq<Handler>)

  /** Blocks are tried in order; no match is answered with 404. */
  datatype Site = DenyAll | Site(ids: seq<string>, blocks: seq<Block>)

  const UNTRUSTED: set<string> := {
    "Remote-User", "Remote-Groups", "Remote-Email", "Remote-Name", "X-Forwarded-For", "X-Forwarded-Host",
    "X-Forwarded-Proto", "X-Forwarded-URI", "X-Forwarded-Method"
  }

  // ----- Rendering -----

  predicate SafePathChar(c: char) {
    'A' <= c <= 'Z' || IsLower(c) || IsDigit(c) || c == '.' || c == '_' || c == '/' || c == '-'
  }

  predicate SafePath(p: string) {
    |p| >= 2 && p[0] == '/' && forall i | 0 <= i < |p| :: SafePathChar(p[i])
  }

  predicate SafeHost(h: string) {
    |h| >= 1 && forall i | 0 <= i < |h| :: IsLower(h[i]) || IsDigit(h[i]) || h[i] == '.' || h[i] == '-'
  }

  predicate SafeRenderer(r: Renderer) {
    (forall i | 0 <= i < |r.paths| :: SafePath(r.paths[i])) && SafeHost(r.targetHost)
  }

  function Host(id: string, prefix: string): string {
    if prefix == "" then id + ".onion" else prefix + "." + id + ".onion"
  }

  function Hosts(ids: seq<string>, prefix: string): (hosts: seq<string>)
    ensures |hosts| == |ids|
    ensures forall h :: h in hosts <==> exists i :: 0 <= i < |ids| && h == Host(ids[i], prefix)
  {
    var hosts := seq(|ids|, i requires 0 <= i < |ids| => Host(ids[i], prefix));
    assert forall i | 0 <= i < |ids| :: hosts[i] == Host(ids[i], prefix);
    hosts
  }

  function Apps(id: string, ms: seq<Mapping>): seq<App> {
    if ms == [] then []
    else if ms[0].enabled then
      [App(ms[0].prefix, "https://" + Host(id, ms[0].prefix) + "/")] + Apps(id, ms[1..])
    else Apps(id, ms[1..])
  }

  function MapBlock(ids: seq<string>, target: string, m: Mapping): Block {
    Block(Hosts(ids, m.prefix), false, [StripUntrusted, ForwardAuth, Proxy(m.protocol, target, m.port)])
  }

  function MapBlocks(ids: seq<string>, target: string, ms: seq<Mapping>): seq<Block> {
    if ms == [] then []
    else if ms[0].enabled then [MapBlock(ids, target, ms[0])] + MapBlocks(ids, target, ms[1..])
    else MapBlocks(ids, target, ms[1..])
  }

  function ById(id: string): string { id }

  function ByPrefix(m: Mapping): string { m.prefix }

  predicate AliasesOk(r: Renderer, s: State) {
    forall i | 0 <= i < |r.aliases| :: ValidServiceId(r.aliases[i]) && r.aliases[i] != s.serviceId
  }

  function PortalBlock(ids: seq<string>): Block {
    Block(Hosts(ids, ""), true, [StripUntrusted, PortalProxy])
  }

  function LauncherBlock(r: Renderer, id: string, ids: seq<string>, ms: seq<Mapping>): Block {
    Block(Hosts(ids, ""), false, [StripUntrusted, ForwardAuth, Launcher(Apps(id, ms), r.publicRoot)])
  }

  function SiteFor(r: Renderer, id: string, ids: seq<string>, ms: seq<Mapping>): Site {
    Site(ids, [PortalBlock(ids), LauncherBlock(r, id, ids, ms)] + MapBlocks(ids, r.targetHost, ms))
  }

  predicate CanRender(r: Renderer, s: State) {
    && Valid(s) && SafeRenderer(r)
    && (s.serviceId != "" && s.initialized ==> AliasesOk(r, s))
  }

  /** The configuration of a state; only meaningful where Render succeeds. */
  function Config(r: Renderer, s: State): Site {
    if s.serviceId == "" || !s.initialized then DenyAll
    else SiteFor(r, s.serviceId, SortBy(ById, [s.serviceId] + r.aliases), SortBy(ByPrefix, s.mappings))
  }

  /** Rendering fails exactly for an invalid state, an unsafe renderer or a bad alias, and
      otherwise builds the configuration by walking the sorted mappings once. */
  method Render(r: Renderer, s: State) returns (ok: bool, site: Site)
    ensures ok <==> CanRender(r, s)
    ensures ok ==> site == Config(r, s)
  {
    site := DenyAll;
    ok := Validate(s);
    if !ok { return; }
    if !SafeRenderer(r) { return false, site; }
    if s.serviceId == "" || !s.initialized { return; }
    hide Valid, SafeRenderer, ValidServiceId, Hosts, Apps, MapBlocks;
    var mappings := SortBy(ByPrefix, s.mappings);
    var ids;
    ok, ids := AllIds(r, s);
    if !ok { return; }
    ids := SortBy(ById, ids);
    var blocks := AppendMappings([PortalBlock(ids), LauncherBlock(r, s.serviceId, ids, mappings)], ids, r.targetHost, mappings);
    site := Site(ids, blocks);
  }

  /** The identity and its aliases, each of them checked. */
  method AllIds(r: Renderer, s: State) returns (ok: bool, ids: seq<string>)
    ensures ok <==> AliasesOk(r, s)
    ensures ok ==> ids == [s.serviceId] + r.aliases
  {
    ids := [s.serviceId];
    for i := 0 to |r.aliases|
      invariant ids == [s.serviceId] + r.aliases[..i]
      invariant forall j | 0 <= j < i :: ValidServiceId(r.aliases[j]) && r.aliases[j] != s.serviceId
    {
      if !ValidServiceId(r.aliases[i]) || r.aliases[i] == s.serviceId { return false, ids; }
      ids := ids + [r.aliases[i]];
    }
    assert r.aliases[..|r.aliases|] == r.aliases;
    ok := true;
  }

  /** One block after the other for the enabled mappings. */
  method AppendMappings(head: seq<Block>, ids: seq<string>, target: string, mappings: seq<Mapping>) returns (blocks: seq<Block>)
    ensures blocks == head + MapBlocks(ids, target, mappings)
  {
    blocks := head;
    for i := 0 to |mappings|
      invariant blocks + MapBlocks(ids, target, mappings[i..]) == head + MapBlocks(ids, target, mappings)
    {
      assert mappings[i..][1..] == mappings[i + 1..];
      if mappings[i].enabled {
        blocks := blocks + [MapBlock(ids, target, mappings[i])];
      }
    }
  }

  // ----- Meaning -----

  /** `portalPath`: one of the login portal's paths and methods. `authorized`: what Authelia
      answers for this request. `headers`: header names the client sent. */
  datatype Request = Request(host: string, portalPath: bool, authorized: bool, headers: set<string>)

  datatype Response =
    | NotFound
    | Denied
    | Portal(headers: set<string>)
    | LauncherPage(apps: seq<App>)
    | Upstream(protocol: string, target: string, port: int, headers: set<string>)

  function Handle(hs: seq<Handler>, q: Request): Response
    decreases |hs|
  {
    if hs == [] then NotFound
    else
      match hs[0]
      case StripUntrusted => Handle(hs[1..], q.(headers := q.headers - UNTRUSTED))
      case ForwardAuth => if q.authorized then Handle(hs[1..], q) else Denied
      case PortalProxy => Portal(q.headers)
      case Launcher(apps, _) => LauncherPage(apps)
      case Proxy(protocol, target, port) => Upstream(protocol, target, port, q.headers)
  }

  predicate Matches(b: Block, q: Request) {
    q.host in b.hosts && (b.portalPaths ==> q.portalPath)
  }

  function FirstMatch(bs: seq<Block>, q: Request): Response {
    if bs == [] then NotFound
    else if Matches(bs[0], q) then Handle(bs[0].handlers, q)
    else FirstMatch(bs[1..], q)
  }

  function Serve(site: Site, q: Request): Response {
    if site.DenyAll? then NotFound else FirstMatch(site.blocks, q)
  }

  // ----- Host names -----

  lemma HostLength(id: string, prefix: string)
    ensures |Host(id, prefix)| == |id| + 6 + (if prefix == "" then 0 else |prefix| + 1)
  {
  }

  /** A host name names one identity and one prefix. */
  lemma HostInjective(id1: string, p1: string, id2: string, p2: string)
    requires |id1| == |id2| && Host(id1, p1) == Host(id2, p2)
    ensures id1 == id2 && p1 == p2
  {
    HostLength(id1, p1);
    HostLength(id2, p2);
    if p1 == "" {
      assert Host(id1, p1)[..|id1|] == id1 && Host(id2, p2)[..|id1|] == id2;
    } else {
      var n := |p1|;
      assert Host(id1, p1)[..n] == p1 && Host(id2, p2)[..n] == p2;
      assert Host(id1, p1)[n + 1..n + 1 + |id1|] == id1;
      assert Host(id2, p2)[n + 1..n + 1 + |id2|] == id2;
    }
  }

  // ----- What the configuration serves -----

  predicate Identities(ids: seq<string>) {
    forall i | 0 <= i < |ids| :: |ids[i]| == 56
  }

  lemma {:induction false} MapHit(ids: seq<string>, target: string, ms: seq<Mapping>, i: nat, q: Request)
    requires Identities(ids) && i < |ms| && ms[i].enabled && q.host in Hosts(ids, ms[i].prefix)
    requires forall j, k | 0 <= j < k < |ms| :: ms[j].prefix != ms[k].prefix
    ensures FirstMatch(MapBlocks(ids, target, ms), q) == Handle(MapBlock(ids, target, ms[i]).handlers, q)
  {
    var bs := MapBlocks(ids, target, ms);
    if i == 0 {
      assert bs[0] == MapBlock(ids, target, ms[0]);
    } else {
      if ms[0].enabled {
        assert bs[1..] == MapBlocks(ids, target, ms[1..]);
        if q.host in Hosts(ids, ms[0].prefix) {
          var j :| 0 <= j < |ids| && q.host == Host(ids[j], ms[i].prefix);
          var k :| 0 <= k < |ids| && q.host == Host(ids[k], ms[0].prefix);
          HostInjective(ids[j], ms[i].prefix, ids[k], ms[0].prefix);
        }
      }
      MapHit(ids, target, ms[1..], i - 1, q);
    }
  }

  lemma {:induction false} MapMiss(ids: seq<string>, target: string, ms: seq<Mapping>, q: Request)
    requires forall i | 0 <= i < |ms| && ms[i].enabled :: q.host !in Hosts(ids, ms[i].prefix)
    ensures FirstMatch(MapBlocks(ids, target, ms), q) == NotFound
  {
    if ms != [] {
      var bs := MapBlocks(ids, target, ms);
      if ms[0].enabled {
        assert bs[1..] == MapBlocks(ids, target, ms[1..]);
      }
      MapMiss(ids, target, ms[1..], q);
    }
  }

  lemma ProxyHandlers(protocol: string, target: string, port: int, q: Request)
    ensures Handle([StripUntrusted, ForwardAuth, Proxy(protocol, target, port)], q) ==
            if q.authorized then Upstream(protocol, target, port, q.headers - UNTRUSTED) else Denied
  {
    var hs := [StripUntrusted, ForwardAuth, Proxy(protocol, target, port)];
    var rest, q' := hs[1..], q.(headers := q.headers - UNTRUSTED);
    assert rest == [ForwardAuth, hs[2]] && rest[1..] == [hs[2]];
    assert Handle(rest, q') == if q.authorized then Handle(rest[1..], q') else Denied;
  }

  lemma LauncherHandlers(apps: seq<App>, root: string, q: Request)
    ensures Handle([StripUntrusted, ForwardAuth, Launcher(apps, root)], q) ==
            if q.authorized then LauncherPage(apps) else Denied
  {
    var hs := [StripUntrusted, ForwardAuth, Launcher(apps, root)];
    var rest, q' := hs[1..], q.(headers := q.headers - UNTRUSTED);
    assert rest == [ForwardAuth, hs[2]] && rest[1..] == [hs[2]];
    assert Handle(rest, q') == if q.authorized then Handle(rest[1..], q') else Denied;
  }

  lemma PortalHandlers(q: Request)
    ensures Handle([StripUntrusted, PortalProxy], q) == Portal(q.headers - UNTRUSTED)
  {
    assert [StripUntrusted, PortalProxy][1..] == [PortalProxy];
  }

  lemma SiteFirstMatch(r: Renderer, id: string, ids: seq<string>, ms: seq<Mapping>, q: Request)
    ensures FirstMatch(SiteFor(r, id, ids, ms).blocks, q) ==
            if q.host !in Hosts(ids, "") then FirstMatch(MapBlocks(ids, r.targetHost, ms), q)
            else if q.portalPath then Portal(q.headers - UNTRUSTED)
            else if q.authorized then LauncherPage(Apps(id, ms))
            else Denied
  {
    var bs := SiteFor(r, id, ids, ms).blocks;
    assert bs[1..][1..] == MapBlocks(ids, r.targetHost, ms);
    PortalHandlers(q);
    LauncherHandlers(Apps(id, ms), r.publicRoot, q);
  }

  /** The identities a renderer serves for a state. */
  predicate Serves(r: Renderer, s: State, id: string) {
    id == s.serviceId || id in r.aliases
  }

  lemma SortedIdentities(r: Renderer, s: State)
    requires CanRender(r, s) && s.initialized
    ensures var ids := SortBy(ById, [s.serviceId] + r.aliases);
            && Identities(ids)
            && forall id :: id in ids <==> Serves(r, s, id)
  {
    var all := [s.serviceId] + r.aliases;
    var ids := SortBy(ById, all);
    forall id ensures id in ids <==> Serves(r, s, id) {
      assert id in multiset(ids) <==> id in multiset(all);
    }
    forall i | 0 <= i < |ids| ensures |ids[i]| == 56 {
      assert ids[i] in ids;
    }
  }

  lemma SortedMappings(s: State)
    requires MappingsValid(s.mappings)
    ensures var ms := SortBy(ByPrefix, s.mappings);
            && (forall m :: m in ms <==> m in s.mappings)
            && (forall i, j | 0 <= i < j < |ms| :: ms[i].prefix != ms[j].prefix)
  {
    SortByDistinct(ByPrefix, s.mappings);
    var ms := SortBy(ByPrefix, s.mappings);
    forall i, j | 0 <= i < j < |ms| ensures ms[i].prefix != ms[j].prefix {
      assert ByPrefix(ms[i]) != ByPrefix(ms[j]);
    }
  }

  /** The launcher and the login portal answer at the bare host of every served identity. */
  lemma LauncherRoute(r: Renderer, s: State, id: string, q: Request)
    requires CanRender(r, s) && s.initialized
    requires Serves(r, s, id) && q.host == Host(id, "")
    ensures Serve(Config(r, s), q) ==
            if q.portalPath then Portal(q.headers - UNTRUSTED)
            else if q.authorized then LauncherPage(Apps(s.serviceId, SortBy(ByPrefix, s.mappings)))
            else Denied
  {
    var ids, ms := SortBy(ById, [s.serviceId] + r.aliases), SortBy(ByPrefix, s.mappings);
    SortedIdentities(r, s);
    assert id in ids;
    SiteFirstMatch(r, s.serviceId, ids, ms, q);
  }

  lemma MapBlocksServe(ids: seq<string>, target: string, ms: seq<Mapping>, id: string, m: Mapping, q: Request)
    requires Identities(ids) && id in ids && m in ms && m.enabled && m.prefix != "" && q.host == Host(id, m.prefix)
    requires forall j, k | 0 <= j < k < |ms| :: ms[j].prefix != ms[k].prefix
    ensures q.host !in Hosts(ids, "")
    ensures FirstMatch(MapBlocks(ids, target, ms), q) ==
            if q.authorized then Upstream(m.protocol, target, m.port, q.headers - UNTRUSTED) else Denied
  {
    NotLauncherHost(ids, id, m.prefix);
    var i :| 0 <= i < |ms| && ms[i] == m;
    MapHit(ids, target, ms, i, q);
    ProxyHandlers(m.protocol, target, m.port, q);
  }

  /** An enabled mapping is reached at its own host under every served identity: its own
      protocol and port, only behind forward authorization, and without the identity and
      forwarding headers the client sent. */
  lemma MappingRoute(r: Renderer, s: State, id: string, m: Mapping, q: Request)
    requires CanRender(r, s) && s.initialized
    requires Serves(r, s, id) && m in s.mappings && m.enabled && q.host == Host(id, m.prefix)
    ensures Serve(Config(r, s), q) ==
            if q.authorized then Upstream(m.protocol, r.targetHost, m.port, q.headers - UNTRUSTED) else Denied
  {
    var ids, ms := SortBy(ById, [s.serviceId] + r.aliases), SortBy(ByPrefix, s.mappings);
    SortedIdentities(r, s);
    SortedMappings(s);
    assert id in ids && m in ms;
    SiteFirstMatch(r, s.serviceId, ids, ms, q);
    MapBlocksServe(ids, r.targetHost, ms, id, m, q);
  }

  /** Every other host is answered with 404, as is every host before setup. */
  lemma UnknownHostRoute(r: Renderer, s: State, q: Request)
    requires CanRender(r, s)
    requires s.initialized ==>
               forall id | Serves(r, s, id) ::
                 q.host != Host(id, "") && forall m | m in s.mappings && m.enabled :: q.host != Host(id, m.prefix)
    ensures Serve(Config(r, s), q) == NotFound
  {
    if s.initialized {
      var ids, ms := SortBy(ById, [s.serviceId] + r.aliases), SortBy(ByPrefix, s.mappings);
      SortedIdentities(r, s);
      SortedMappings(s);
      SiteFirstMatch(r, s.serviceId, ids, ms, q);
      forall i | 0 <= i < |ms| && ms[i].enabled ensures q.host !in Hosts(ids, ms[i].prefix) {
        assert ms[i] in ms;
        forall j | 0 <= j < |ids| ensures q.host != Host(ids[j], ms[i].prefix) {
          assert ids[j] in ids;
        }
      }
      MapMiss(ids, r.targetHost, ms, q);
      forall j | 0 <= j < |ids| ensures q.host != Host(ids[j], "") {
        assert ids[j] in ids;
      }
    }
  }

  lemma NotLauncherHost(ids: seq<string>, id: string, prefix: string)
    requires Identities(ids) && id in ids && prefix != ""
    ensures Host(id, prefix) !in Hosts(ids, "")
  {
    forall j | 0 <= j < |ids| ensures Host(id, prefix) != Host(ids[j], "") {
      HostLength(id, prefix);
      HostLength(ids[j], "");
    }
  }

  /** The result does not depend on the order of mappings or aliases. */
  lemma OrderDoesNotMatter(r: Renderer, s: State, ms: seq<Mapping>, aliases: seq<string>)
    requires CanRender(r, s)
    requires multiset(ms) == multiset(s.mappings) && multiset(aliases) == multiset(r.aliases)
    ensures Config(r.(aliases := aliases), s.(mappings := ms)) == Config(r, s)
  {
    forall x, y | x in s.mappings && y in s.mappings && ByPrefix(x) == ByPrefix(y) ensures x == y {
      var i :| 0 <= i < |s.mappings| && s.mappings[i] == x;
      var j :| 0 <= j < |s.mappings| && s.mappings[j] == y;
    }
    SortForgetsOrder(ByPrefix, s.mappings, ms);
    assert multiset([s.serviceId] + aliases) == multiset([s.serviceId] + r.aliases);
    SortForgetsOrder(ById, [s.serviceId] + r.aliases, [s.serviceId] + aliases);
  }

  /** The frame: sessions, tokens, devices, pending enrolment and publication leave the
      configuration alone, so operations on them need not touch Caddy. */
  lemma ConfigFrame(r: Renderer, s: State, t: State)
    requires s.serviceId == t.serviceId && s.initialized == t.initialized && s.mappings == t.mappings
    ensures Config(r, s) == Config(r, t)
    ensures Valid(s) && Valid(t) ==> (CanRender(r, s) <==> CanRender(r, t))
  {
  }

  /** The launcher lists exactly the enabled mappings, and every link leads to its own
      application. */
  lemma LauncherLinksWork(r: Renderer, s: State, q: Request, i: nat) returns (m: Mapping)
    requires CanRender(r, s) && s.initialized && q.authorized
    requires i < |Apps(s.serviceId, SortBy(ByPrefix, s.mappings))|
    requires Apps(s.serviceId, SortBy(ByPrefix, s.mappings))[i].url == "https://" + q.host + "/"
    ensures m in s.mappings && m.enabled && m.prefix == Apps(s.serviceId, SortBy(ByPrefix, s.mappings))[i].name
    ensures Serve(Config(r, s), q) == Upstream(m.protocol, r.targetHost, m.port, q.headers - UNTRUSTED)
  {
    var ms := SortBy(ByPrefix, s.mappings);
    m := AppSource(s.serviceId, ms, i);
    SortedMappings(s);
    UrlHost(q.host, Host(s.serviceId, m.prefix));
    MappingRoute(r, s, s.serviceId, m, q);
  }

  lemma UrlHost(a: string, b: string)
    requires "https://" + a + "/" == "https://" + b + "/"
    ensures a == b
  {
    var x, y := "https://" + a + "/", "https://" + b + "/";
    assert x[8..|x| - 1] == a && y[8..|y| - 1] == b;
  }

  lemma {:induction false} AppSource(id: string, ms: seq<Mapping>, i: nat) returns (m: Mapping)
    requires i < |Apps(id, ms)|
    ensures m in ms && m.enabled && Apps(id, ms)[i] == App(m.prefix, "https://" + Host(id, m.prefix) + "/")
  {
    if ms[0].enabled && i == 0 {
      m := ms[0];
    } else {
      m := AppSource(id, ms[1..], if ms[0].enabled then i - 1 else i);
    }
  }

  lemma {:induction false} AppOf(id: string, ms: seq<Mapping>, i: nat) returns (k: nat)
    requires i < |ms| && ms[i].enabled
    ensures k < |Apps(id, ms)| && Apps(id, ms)[k] == App(ms[i].prefix, "https://" + Host(id, ms[i].prefix) + "/")
  {
    if i == 0 {
      k := 0;
    } else {
      k := AppOf(id, ms[1..], i - 1);
      if ms[0].enabled { k := k + 1; }
    }
  }

  /** The application of a mapping, by its address. */
  predicate Links(app: App, m: Mapping, id: string) {
    app == App(m.prefix, "https://" + m.prefix + "." + id + ".onion/")
  }

  lemma LinkText(id: string, prefix: string)
    requires prefix != ""
    ensures "https://" + Host(id, prefix) + "/" == "https://" + prefix + "." + id + ".onion/"
  {
    assert ".onion" + "/" == ".onion/";
  }

  lemma AppsAreEnabled(id: string, ms: seq<Mapping>, app: App)
    requires forall i | 0 <= i < |ms| :: ms[i].prefix != ""
    ensures app in Apps(id, ms) <==> exists m :: m in ms && m.enabled && Links(app, m, id)
  {
    if app in Apps(id, ms) {
      var k :| 0 <= k < |Apps(id, ms)| && Apps(id, ms)[k] == app;
      var m := AppSource(id, ms, k);
      LinkText(id, m.prefix);
      assert m in ms && m.enabled && Links(app, m, id);
    }
    if m :| m in ms && m.enabled && Links(app, m, id) {
      var i :| 0 <= i < |ms| && ms[i] == m;
      var k := AppOf(id, ms, i);
      LinkText(id, m.prefix);
    }
  }

  /** The page served at the bare host of the identity lists the enabled mappings, all of them
      and no others, each with its own address. */
  lemma LauncherListsEnabled(r: Renderer, s: State, q: Request)
    requires CanRender(r, s) && s.initialized
    requires q.host == s.serviceId + ".onion" && q.authorized && !q.portalPath
    ensures var page := Serve(Config(r, s), q);
            && page.LauncherPage?
            && forall app :: app in page.apps <==> exists m :: m in s.mappings && m.enabled && Links(app, m, s.serviceId)
  {
    LauncherRoute(r, s, s.serviceId, q);
    SortedMappings(s);
    var ms := SortBy(ByPrefix, s.mappings);
    forall i | 0 <= i < |ms| ensures ms[i].prefix != "" { assert ms[i] in s.mappings; }
    hide Apps, SortBy, Config, Links;
    forall app ensures app in Apps(s.serviceId, ms) <==> exists m :: m in s.mappings && m.enabled && Links(app, m, s.serviceId) {
      AppsAreEnabled(s.serviceId, ms, app);
    }
  }

  /** Header names that speak for Authelia or for a proxy. */
  predicate Forgeable(name: string) {
    || name == "Remote-User" || name == "Remote-Groups" || name == "Remote-Email" || name == "Remote-Name"
    || name == "X-Forwarded-For" || name == "X-Forwarded-Host" || name == "X-Forwarded-Proto"
    || name == "X-Forwarded-URI" || name == "X-Forwarded-Method"
  }

  /** What reaches an application or the portal has of the client's headers all but the forgeable ones. */
  lemma NoForgedHeaders(r: Renderer, s: State, q: Request)
    requires CanRender(r, s)
    ensures var a := Serve(Config(r, s), q);
            a.Upstream? || a.Portal? ==> forall h :: h in a.headers <==> h in q.headers && !Forgeable(h)
  {
    hide Config, Serve, CanRender, Host;
    if s.initialized && exists id, p :: AnswersAt(r, s, id, p, q.host) {
      var id, p :| AnswersAt(r, s, id, p, q.host);
      if p == "" {
        LauncherRoute(r, s, id, q);
      } else {
        var m :| m in s.mappings && m.enabled && m.prefix == p;
        MappingRoute(r, s, id, m, q);
      }
    } else {
      NobodyAnswers(r, s, q);
    }
  }

  /** The host of the launcher or of an enabled mapping. */
  predicate AnswersAt(r: Renderer, s: State, id: string, prefix: string, host: string) {
    && Serves(r, s, id) && host == Host(id, prefix)
    && (prefix == "" || exists m :: m in s.mappings && m.enabled && m.prefix == prefix)
  }

  lemma NobodyAnswers(r: Renderer, s: State, q: Request)
    requires CanRender(r, s) && (s.initialized ==> forall id, p :: !AnswersAt(r, s, id, p, q.host))
    ensures Serve(Config(r, s), q) == NotFound
  {
    if s.initialized {
      forall id | Serves(r, s, id)
        ensures q.host != Host(id, "") && forall m | m in s.mappings && m.enabled :: q.host != Host(id, m.prefix)
      {
        assert !AnswersAt(r, s, id, "", q.host);
        forall m | m in s.mappings && m.enabled ensures q.host != Host(id, m.prefix) {
          assert !AnswersAt(r, s, id, m.prefix, q.host);
        }
      }
    }
    UnknownHostRoute(r, s, q);
  }
}
