/** The components the control plane drives. How each step ends is given by the caller: it
    works, it fails, or it takes effect and reports an error all the same. */
module Components {
  import opened Options
  import opened Model
  import opened Identity
  import opened Routing
  import AuthFiles

  type Clients = map<string, string>

  /** What Tor reads when it starts or reloads: identity, client files and publication. */
  datatype Loaded = Loaded(id: Option<string>, clients: Option<AuthFiles.Listing>, publish: bool)

  function OnDisk(dirs: Dirs, torrc: bool): Loaded {
    Loaded(IdAt(dirs, Active), if HasClients(dirs) then Some(ClientsIn(dirs)) else None, torrc)
  }

  /** Tor lets in the client that has the secret of this key. */
  predicate Admits(tor: Loaded, id: string, key: string) {
    && tor.clients.Some? && id + ".auth" in tor.clients.value
    && tor.clients.value[id + ".auth"] == AuthFiles.Regular("descriptor:x25519:" + key + "\n")
  }

  /** The domain in Authelia's config file, in our client, and in the running process. */
  datatype Authelia = Authelia(config: string, domain: string, running: string)

  /** Does the site answer for the launcher of this identity? */
  predicate Answers(site: Site, id: string) {
    Serve(site, Request(Host(id, ""), false, true, {})) != NotFound
  }

  /** The site was rendered for this identity, among others. */
  predicate Covers(site: Site, id: string) {
    site.Site? && id in site.ids
  }

  datatype Moment = Moment(published: Option<string>, live: Site)

  /** Whatever Tor publishes, Caddy's live configuration covers. */
  predicate Covered(m: Moment) {
    m.published.Some? ==> Covers(m.live, m.published.value)
  }

  predicate CoveredFrom(moments: seq<Moment>, start: nat) {
    forall i | start <= i < |moments| :: Covered(moments[i])
  }

  // ----- Client files of the active identity -----

  predicate HasClients(dirs: Dirs) {
    Active in dirs && dirs[Active].auth.Some?
  }

  function Listed(dirs: Dirs): AuthFiles.Listing
    requires HasClients(dirs)
  {
    dirs[Active].auth.value
  }

  function ClientsIn(dirs: Dirs): AuthFiles.Listing
    requires HasClients(dirs)
  {
    AuthFiles.ClientFiles(Listed(dirs))
  }

  function WithListing(dirs: Dirs, listing: AuthFiles.Listing): Dirs
    requires HasClients(dirs)
  {
    dirs[Active := dirs[Active].(auth := Some(listing))]
  }

  /** Two states of the disk differ in the active clients at most, and only regular files are new. */
  ghost predicate OnlyClients(a: Dirs, b: Dirs) {
    && HasClients(a) && HasClients(b)
    && b[Active].files == a[Active].files && SameBut(b, a, Active)
    && AuthFiles.AddsRegular(Listed(a), Listed(b))
  }

  /** Client files never matter to an identity's survival. */
  lemma ClientsLeaveIdentity(a: Dirs, b: Dirs, id: string, files: Files)
    requires OnlyClients(a, b)
    ensures Recoverable(b, id, files) <==> Recoverable(a, id, files)
    ensures IdAt(b, Active) == IdAt(a, Active)
  {
  }

  lemma OnlyClientsTwice(a: Dirs, b: Dirs, c: Dirs)
    requires OnlyClients(a, b) && OnlyClients(b, c)
    ensures OnlyClients(a, c)
  {
    AuthFiles.AddsRegularTwice(Listed(a), Listed(b), Listed(c));
  }

  class Runtime {
    const disk: Disk
    /** The publication flag rendered into torrc. */
    var torrc: bool
    /** What the running Tor last loaded. */
    var tor: Loaded
    var authelia: Authelia
    /** Caddy's live configuration. */
    var live: Site
    /** What Tor published and Caddy served, at each change of either. */
    ghost var moments: seq<Moment>
    /** How many compensations have been run. */
    ghost var undos: nat

    constructor (disk: Disk, torrc: bool, tor: Loaded, authelia: Authelia, live: Site)
      ensures this.disk == disk && this.torrc == torrc && this.tor == tor && this.authelia == authelia
      ensures this.live == live && moments == [] && undos == 0
    {
      this.disk, this.torrc, this.tor, this.authelia, this.live := disk, torrc, tor, authelia, live;
      moments, undos := [], 0;
    }

    method WriteConfig(publication: bool, fate: Fate) returns (ok: bool)
      modifies `torrc
      ensures ok == fate.Fine?
      ensures torrc == if fate.Fails? then old(torrc) else publication
    {
      if !fate.Fails? { torrc := publication; }
      ok := fate.Fine?;
    }

    /** A reload, or a restart of the process. */
    method ReloadTor(fate: Fate) returns (ok: bool)
      modifies `tor, `moments
      ensures ok == fate.Fine?
      ensures tor == if fate.Fails? then old(tor) else OnDisk(disk.dirs, torrc)
      ensures moments == if fate.Fails? then old(moments) else old(moments) + [Moment(tor.id, live)]
    {
      if !fate.Fails? {
        tor := OnDisk(disk.dirs, torrc);
        moments := moments + [Moment(tor.id, live)];
      }
      ok := fate.Fine?;
    }

    method ApplyCaddy(site: Site, fate: Fate) returns (ok: bool)
      modifies `live, `moments
      ensures ok == fate.Fine?
      ensures live == if fate.Fails? then old(live) else site
      ensures moments == if fate.Fails? then old(moments) else old(moments) + [Moment(tor.id, live)]
    {
      if !fate.Fails? {
        live := site;
        moments := moments + [Moment(tor.id, live)];
      }
      ok := fate.Fine?;
    }

    method WriteAuthelia(id: string, fate: Fate) returns (ok: bool)
      modifies `authelia
      ensures ok == fate.Fine?
      ensures authelia == if fate.Fails? then old(authelia) else old(authelia).(config := id)
    {
      if !fate.Fails? { authelia := authelia.(config := id); }
      ok := fate.Fine?;
    }

    method RestartAuthelia(fate: Fate) returns (ok: bool)
      modifies `authelia
      ensures ok == fate.Fine?
      ensures authelia == if fate.Fails? then old(authelia) else old(authelia).(running := old(authelia).config)
    {
      if !fate.Fails? { authelia := authelia.(running := authelia.config); }
      ok := fate.Fine?;
    }

    /** The three steps on client files fail and change nothing if the directory is missing. */
    method WriteAuthorization(id: string, key: string, fate: Fate) returns (ok: bool)
      modifies disk
      ensures ok <==> fate.Fine? && CanWrite(old(disk.dirs), id, key)
      ensures HasClients(old(disk.dirs)) ==> OnlyClients(old(disk.dirs), disk.dirs)
      ensures fate.Fails? || !CanWrite(old(disk.dirs), id, key) ==> disk.dirs == old(disk.dirs)
      ensures !fate.Fails? && CanWrite(old(disk.dirs), id, key) ==>
                ClientsIn(disk.dirs) == ClientsIn(old(disk.dirs))[AuthFiles.FileName(id) := ClientFile(key)]
    {
      if !HasClients(disk.dirs) { return false; }
      var auth := new AuthFiles.AuthDir(Listed(disk.dirs));
      ok := auth.WriteAuthorization(id, key, fate);
      AuthFiles.WrittenClients(Listed(disk.dirs), id, key);
      disk.dirs := WithListing(disk.dirs, auth.entries);
    }

    method RemoveAuthorization(id: string, fate: Fate) returns (ok: bool)
      modifies disk
      ensures ok <==> fate.Fine? && HasClients(old(disk.dirs))
      ensures HasClients(old(disk.dirs)) ==> OnlyClients(old(disk.dirs), disk.dirs)
      ensures !ok ==> disk.dirs == old(disk.dirs)
      ensures ok ==> ClientsIn(disk.dirs) == ClientsIn(old(disk.dirs)) - {AuthFiles.FileName(id)}
      ensures ok ==> AuthFiles.FileName(id) !in Listed(disk.dirs)
    {
      if !HasClients(disk.dirs) { return false; }
      var auth := new AuthFiles.AuthDir(Listed(disk.dirs));
      ok := auth.Remove(AuthFiles.FileName(id), fate.Fine?);
      AuthFiles.RemovedClients(Listed(disk.dirs), id);
      disk.dirs := WithListing(disk.dirs, auth.entries);
    }

    /** The reconciliation of the client directory, from whatever it lists. */
    method Reconcile(devices: seq<Device>, pending: Option<PendingDevice>, fine: bool) returns (ok: bool)
      modifies disk
      ensures ok <==> fine && CanReconcile(old(disk.dirs), AuthFiles.Expected(devices, pending))
      ensures if HasClients(old(disk.dirs)) then OnlyClients(old(disk.dirs), disk.dirs) else disk.dirs == old(disk.dirs)
      ensures ok ==> ClientsIn(disk.dirs) == AuthFiles.FilesOf(AuthFiles.Expected(devices, pending))
    {
      hide AuthFiles.Reconciled, AuthFiles.AllReplaceable, AuthFiles.FilesOf, AuthFiles.ClientFiles, AuthFiles.Expected;
      if !HasClients(disk.dirs) { return false; }
      var auth := new AuthFiles.AuthDir(Listed(disk.dirs));
      ok := auth.Reconcile(devices, pending, fine);
      AuthFiles.ReconciledClients(Listed(disk.dirs), AuthFiles.Expected(devices, pending));
      disk.dirs := WithListing(disk.dirs, auth.entries);
    }
  }

  function ClientFile(key: string): AuthFiles.Entry {
    AuthFiles.Regular(AuthFiles.AuthText(key))
  }

  predicate CanWrite(dirs: Dirs, id: string, key: string) {
    HasClients(dirs) && AuthFiles.Replaceable(Listed(dirs), id, key)
  }

  predicate CanReconcile(dirs: Dirs, clients: Clients) {
    HasClients(dirs) && AuthFiles.AllReplaceable(Listed(dirs), clients)
  }

  /** A rendered site covers, and answers for, exactly the identities of its renderer. */
  lemma CoversIff(r: Renderer, s: State, id: string)
    requires CanRender(r, s) && s.initialized && ValidServiceId(id)
    ensures Covers(Config(r, s), id) <==> Serves(r, s, id)
    ensures Answers(Config(r, s), id) <==> Serves(r, s, id)
  {
    SortedIdentities(r, s);
    var q := Request(Host(id, ""), false, true, {});
    if Serves(r, s, id) {
      LauncherRoute(r, s, id, q);
    } else {
      forall other, p | Serves(r, s, other) ensures q.host != Host(other, p) {
        assert ValidServiceId(other);
        HostsApart(id, other, p);
      }
      UnknownHostRoute(r, s, q);
    }
  }

  lemma HostsApart(id: string, other: string, p: string)
    requires |id| == |other| && id != other
    ensures Host(id, "") != Host(other, p)
  {
    if Host(id, "") == Host(other, p) { HostInjective(id, "", other, p); }
  }
}
