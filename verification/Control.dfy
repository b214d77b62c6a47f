/** The operations of the control plane: each changes a component, commits to the store, and
    compensates if the commit fails. */
module Control {
  import opened Options
  import opened Model
  import opened Identity
  import opened Routing
  import opened Components
  import opened StateStore
  import opened Rotation
  import AuthFiles
  import Mappings

  /** NotAllowed: refused by a guard before anything was touched. Refused: a step failed. */
  datatype Reply = Committed | NotAllowed | Refused | Crashed

  // ----- How the steps of an operation end -----

  datatype PublishFate = PublishFate(
    write: Fate, accepted: bool, reload: Fate, undoWrite: Fate, undoReload: Fate, commit: Outcome)

  datatype ClientFate = ClientFate(edit: Fate, reload: Fate, undoEdit: Fate, undoReload: Fate, commit: Outcome)

  datatype ReconcileFate = ReconcileFate(
    files: bool, reload: Fate, filesBack: bool, undoFiles: bool, undoReload: Fate, commit: Outcome)

  datatype WebFate = WebFate(apply: Fate, undo: Fate, commit: Outcome)

  datatype RotateFate = RotateFate(rotation: RotationFate, commit: Outcome, finish: Verdict)

  datatype StartFate = StartFate(
    open: Outcome, ensure: Verdict, recover: Recovery, clients: bool, config: Fate, accepted: bool,
    authelia: Fate, tor: Fate, auth: Fate, reconcile: ReconcileFate, caddy: Fate)

  /** The compensating steps work, and the state write does not report an error after its rename. */
  predicate PublishKept(f: PublishFate) {
    f.undoWrite.Fine? && f.undoReload.Fine? && !f.commit.Late?
  }

  predicate ClientKept(f: ClientFate) {
    f.undoEdit.Fine? && f.undoReload.Fine? && !f.commit.Late?
  }

  predicate ReconcileKept(f: ReconcileFate) {
    f.filesBack && f.undoFiles && f.undoReload.Fine? && !f.commit.Late?
  }

  predicate WebKept(f: WebFate) {
    f.undo.Fine? && !f.commit.Late?
  }

  predicate ReconcileWorks(f: ReconcileFate) {
    f.files && f.reload.Fine? && f.commit.Written?
  }

  predicate StartWorks(f: StartFate) {
    && f.open.Written? && f.ensure.Done? && Recovers(f.recover)
    && f.clients && f.config.Fine? && f.accepted
    && f.authelia.Fine? && f.tor.Fine? && f.auth.Fine? && ReconcileWorks(f.reconcile) && f.caddy.Fine?
  }

  // ----- Agreement -----

  /** The durable state has an identity and its mappings are in order. */
  ghost predicate Running(s: State) {
    ValidServiceId(s.serviceId) && Mappings.InOrder(s.mappings)
  }

  /** The clients a state authorizes. */
  function Authorized(s: State): Clients {
    AuthFiles.Expected(s.devices, s.pending)
  }

  /** Client files, torrc and what Tor loaded all say what the state says. */
  ghost predicate TorInStep(s: State, dirs: Dirs, torrc: bool, tor: Loaded) {
    && HasClients(dirs) && ClientsIn(dirs) == AuthFiles.FilesOf(Authorized(s))
    && IdAt(dirs, Active) == Some(s.serviceId)
    && torrc == s.publication
    && tor == OnDisk(dirs, torrc)
  }

  /** Whatever happens next, a restart finds a valid state and exactly its identity's files. */
  ghost predicate Durable(file: Option<Contents<State>>, dirs: Dirs, identity: Files) {
    && Reopened(file).Some? && Running(Reopened(file).value)
    && Recoverable(dirs, Reopened(file).value.serviceId, identity)
  }

  /** The directory startup settles on has its client directory, or will be given one, and no
      directory or special file there has the name of a client's file. */
  predicate Tidy(dirs: Dirs, id: string, clients: Clients) {
    var d := Settles(dirs, id);
    && d.Some?
    && (d.value.auth.Some? || IdAt(dirs, Active) == Some(id))
    && (d.value.auth.Some? ==> AuthFiles.AllReplaceable(d.value.auth.value, clients))
  }

  /** Nothing on the disk but a failing step can keep the plane from starting. */
  predicate Ready(file: Option<Contents<State>>, dirs: Dirs) {
    && Reopened(file).Some?
    && Tidy(dirs, Reopened(file).value.serviceId, Authorized(Reopened(file).value))
  }

  // ----- Clients of changed device lists -----

  lemma {:induction false} NotADevice(ds: seq<Device>, id: string)
    requires forall i | 0 <= i < |ds| :: ds[i].id != id
    ensures id !in AuthFiles.DeviceKeys(ds)
  {
    if ds != [] { NotADevice(ds[..|ds| - 1], id); }
  }

  function WithoutDevice(ds: seq<Device>, id: string): seq<Device> {
    if ds == [] then []
    else
      var kept := WithoutDevice(ds[..|ds| - 1], id);
      if ds[|ds| - 1].id == id then kept else kept + [ds[|ds| - 1]]
  }

  /** Revoking takes the device's file away and nothing else. */
  lemma {:induction false} RevokedKeys(ds: seq<Device>, id: string)
    ensures AuthFiles.DeviceKeys(WithoutDevice(ds, id)) == AuthFiles.DeviceKeys(ds) - {id}
  {
    if ds != [] {
      RevokedKeys(ds[..|ds| - 1], id);
      var kept := WithoutDevice(ds[..|ds| - 1], id);
      assert (kept + [ds[|ds| - 1]])[..|kept|] == kept;
    }
  }

  /** The removed device is the one the file held. */
  lemma {:induction false} KeyOfDevice(ds: seq<Device>, i: nat)
    requires i < |ds| && forall j, k | 0 <= j < k < |ds| :: ds[j].id != ds[k].id
    ensures ds[i].id in AuthFiles.DeviceKeys(ds) && AuthFiles.DeviceKeys(ds)[ds[i].id] == ds[i].publicKey
  {
    if i < |ds| - 1 { KeyOfDevice(ds[..|ds| - 1], i); }
  }

  lemma AcknowledgedKeys(ds: seq<Device>, p: PendingDevice, d: Device)
    requires d.id == p.device.id && d.publicKey == p.device.publicKey
    ensures AuthFiles.Expected(ds + [d], None) == AuthFiles.Expected(ds, Some(p))
  {
    assert (ds + [d])[..|ds|] == ds;
  }

  lemma {:induction false} DeviceRecords(ds: seq<Device>, id: string)
    requires (forall i | 0 <= i < |ds| :: ValidId(ds[i].id) && ValidKey(ds[i].publicKey)) && id in AuthFiles.DeviceKeys(ds)
    ensures ValidId(id) && ValidKey(AuthFiles.DeviceKeys(ds)[id])
  {
    if ds[|ds| - 1].id != id { DeviceRecords(ds[..|ds| - 1], id); }
  }

  /** A device of the state, or the pending one, has this key. */
  predicate IsClient(s: State, id: string, key: string) {
    || (exists i | 0 <= i < |s.devices| :: s.devices[i].id == id && s.devices[i].publicKey == key)
    || (s.pending.Some? && s.pending.value.device.id == id && s.pending.value.device.publicKey == key)
  }

  lemma {:induction false} DeviceOfKey(ds: seq<Device>, id: string) returns (i: nat)
    requires id in AuthFiles.DeviceKeys(ds)
    ensures i < |ds| && ds[i].id == id && ds[i].publicKey == AuthFiles.DeviceKeys(ds)[id]
  {
    if ds[|ds| - 1].id == id { i := |ds| - 1; } else { i := DeviceOfKey(ds[..|ds| - 1], id); }
  }

  lemma AuthorizedIff(s: State, id: string, key: string)
    requires Valid(s)
    ensures id in Authorized(s) && Authorized(s)[id] == key <==> IsClient(s, id, key)
  {
    var ds := s.devices;
    if id in AuthFiles.DeviceKeys(ds) { var i := DeviceOfKey(ds, id); }
    forall i | 0 <= i < |ds| && ds[i].id == id
      ensures id in AuthFiles.DeviceKeys(ds) && AuthFiles.DeviceKeys(ds)[id] == ds[i].publicKey
    {
      KeyOfDevice(ds, i);
    }
  }

  /** In step, Tor runs as the state's identity and lets in its devices, the pending one, and
      no others. */
  lemma TorAdmitsExactly(s: State, dirs: Dirs, torrc: bool, tor: Loaded)
    requires Valid(s) && TorInStep(s, dirs, torrc, tor)
    ensures tor.id == Some(s.serviceId) && tor.publish == s.publication
    ensures forall id, key :: Admits(tor, id, key) <==> IsClient(s, id, key)
  {
    forall id, key ensures Admits(tor, id, key) <==> IsClient(s, id, key) {
      AuthFiles.FileOf(Authorized(s), id);
      if id in Authorized(s) && Admits(tor, id, key) { AuthFiles.TextInjective(Authorized(s)[id], key); }
      AuthorizedIff(s, id, key);
    }
  }

  /** Every client of a valid state has a well-formed record. */
  lemma AuthorizedRecords(s: State, id: string)
    requires Valid(s) && id in Authorized(s)
    ensures ValidId(id) && ValidKey(Authorized(s)[id])
  {
    if s.pending.None? || s.pending.value.device.id != id {
      forall i | 0 <= i < |s.devices| ensures ValidId(s.devices[i].id) && ValidKey(s.devices[i].publicKey) {
        assert ValidDevice(s.devices[i]);
      }
      DeviceRecords(s.devices, id);
    }
  }

  /** In step, nothing stands in the way of the state's own client files. */
  lemma InStepReconciles(s: State, t: State, dirs: Dirs, torrc: bool, tor: Loaded)
    requires Valid(s) && TorInStep(s, dirs, torrc, tor)
    requires forall id | id in Authorized(t) :: id in Authorized(s) && Authorized(t)[id] == Authorized(s)[id]
    ensures CanReconcile(dirs, Authorized(t))
  {
    forall id | id in Authorized(t) ensures AuthFiles.Replaceable(Listed(dirs), id, Authorized(t)[id]) {
      AuthorizedRecords(s, id);
      AuthFiles.FileOf(Authorized(s), id);
      assert AuthFiles.FileName(id) in ClientsIn(dirs);
    }
  }

  lemma StillReconciles(a: Dirs, b: Dirs, clients: Clients)
    requires OnlyClients(a, b) && CanReconcile(a, clients)
    ensures CanReconcile(b, clients)
  {
    forall id | id in clients ensures AuthFiles.Replaceable(Listed(b), id, clients[id]) {
      assert AuthFiles.Replaceable(Listed(a), id, clients[id]);
    }
  }

  lemma MoreReconciles(dirs: Dirs, clients: Clients, id: string, key: string)
    requires CanReconcile(dirs, clients) && CanWrite(dirs, id, key)
    ensures CanReconcile(dirs, clients[id := key])
  {
  }

  lemma FewerReconcile(dirs: Dirs, clients: Clients, fewer: Clients)
    requires CanReconcile(dirs, clients) && forall id | id in fewer :: id in clients && clients[id] == fewer[id]
    ensures CanReconcile(dirs, fewer)
  {
  }

  /** An operation on client files, wherever it stops, can be followed by a restart. */
  lemma RestartsAfter(file: Option<Contents<State>>, dirs: Dirs, start: Dirs, identity: Files, current: State, candidate: State)
    requires OnlyClients(start, dirs) && HoldsFiles(start, Active, identity) && IdAt(start, Active) == Some(current.serviceId)
    requires Reopened(file).Some? && Running(Reopened(file).value) && Reopened(file).value.serviceId == current.serviceId
    requires CanReconcile(start, Authorized(current))
    requires Authorized(Reopened(file).value) != Authorized(current) ==>
               Authorized(Reopened(file).value) == Authorized(candidate) && CanReconcile(start, Authorized(candidate))
    ensures Durable(file, dirs, identity) && Ready(file, dirs)
  {
    StillReconciles(start, dirs, Authorized(Reopened(file).value));
  }

  class Manager {
    const store: Store
    const run: Runtime
    const rotator: Rotator
    const renderer: Renderer
    /** The files of the durable identity. */
    ghost var identity: Files

    constructor (store: Store, run: Runtime, rotator: Rotator, renderer: Renderer, ghost identity: Files)
      ensures this.store == store && this.run == run && this.rotator == rotator && this.renderer == renderer
      ensures this.identity == identity
    {
      this.store, this.run, this.rotator, this.renderer, this.identity := store, run, rotator, renderer, identity;
    }

    ghost predicate Wired() {
      rotator.run == run && rotator.renderer == renderer && renderer.aliases == []
    }

    ghost predicate TorSide()
      reads this, store, store.file, run, run.disk
    {
      && Settled(store.memory, store.file.target) && Running(store.memory)
      && TorInStep(store.memory, run.disk.dirs, run.torrc, run.tor)
      && identity == run.disk.dirs[Active].files
    }

    ghost predicate WebSide()
      reads this, store, run
    {
      && Wired() && SafeRenderer(renderer)
      && run.live == Config(renderer, store.memory)
      && run.authelia == Authelia(store.memory.serviceId, store.memory.serviceId, store.memory.serviceId)
    }

    /** Store, file, Tor's files, Tor, Authelia and Caddy all agree. */
    ghost predicate Agree()
      reads this, store, store.file, run, run.disk
    {
      TorSide() && WebSide()
    }

    ghost predicate Survives()
      reads this, store, store.file, run.disk
    {
      Durable(store.file.target, run.disk.dirs, identity)
    }

    /** A restart finds everything it needs. */
    ghost predicate Restartable()
      reads this, store, store.file, run.disk
    {
      Survives() && Ready(store.file.target, run.disk.dirs)
    }

    ghost predicate CanStart()
      reads store.file, run.disk
    {
      SafeRenderer(renderer) && Ready(store.file.target, run.disk.dirs)
    }

    lemma InStepRestarts()
      requires TorSide()
      ensures CanReconcile(run.disk.dirs, Authorized(store.memory)) && OnlyClients(run.disk.dirs, run.disk.dirs)
      ensures Restartable()
    {
      InStepReconciles(store.memory, store.memory, run.disk.dirs, run.torrc, run.tor);
      RestartsAfter(store.file.target, run.disk.dirs, run.disk.dirs, identity, store.memory, store.memory);
    }

    lemma AdmitsItsClients()
      requires TorSide()
      ensures run.tor.id == Some(store.memory.serviceId) && run.tor.publish == store.memory.publication
      ensures forall id, key :: Admits(run.tor, id, key) <==> IsClient(store.memory, id, key)
    {
      TorAdmitsExactly(store.memory, run.disk.dirs, run.torrc, run.tor);
    }

    /** The commit of an operation that keeps the identity. */
    method Commit(next: State, applied: bool, fate: Outcome) returns (v: Outcome, undo: bool)
      requires Settled(store.memory, store.file.target) && Running(store.memory)
      requires Running(next) && next.serviceId == store.memory.serviceId
      modifies store, store.file
      ensures v == if Valid(next) then fate else Outcome.Failed
      ensures store.memory == if v.Written? then next else old(store.memory)
      ensures v.Written? || v.Failed? ==> Settled(store.memory, store.file.target)
      ensures undo <==> applied && (v.Failed? || v.Late?)
      ensures Reopened(store.file.target).Some? && Running(Reopened(store.file.target).value)
      ensures Reopened(store.file.target).value.serviceId == store.memory.serviceId
      ensures Authorized(Reopened(store.file.target).value) == Authorized(old(store.memory)) ||
              Authorized(Reopened(store.file.target).value) == Authorized(next)
    {
      v, undo := store.Transition(Proposal(Some(next), applied), fate);
    }

    // ----- Publication -----

    /** A refused change leaves everything as it was if its compensations work, except exactly when
        writing torrc reported an error after its rename: that write is not undone. */
    method SetPublication(enabled: bool, f: PublishFate) returns (r: Reply)
      requires Agree()
      modifies run`torrc, run`tor, run`moments, run`undos, store, store.file
      ensures r.NotAllowed? <==> !Valid(old(store.memory).(publication := enabled))
      ensures r.Committed? <==> !r.NotAllowed? && f.write.Fine? && f.accepted && f.reload.Fine? && f.commit.Written?
      ensures r.Crashed? ==> f.commit.Crashed?
      ensures r.Committed? ==> Agree() && store.memory == old(store.memory).(publication := enabled)
      ensures r.Committed? ==> run.tor == old(run.tor).(publish := enabled)
      ensures r.NotAllowed? ==> Agree()
      ensures r.NotAllowed? || r.Refused? ==> store.memory == old(store.memory)
      ensures r.Refused? && PublishKept(f) ==> (Agree() <==> !TorrcStrays(old(store.memory), enabled, f))
      ensures run.undos == old(run.undos) + (if r.Refused? && f.write.Fine? then 1 else 0)
      ensures Restartable()
    {
      hide AuthFiles.FilesOf, AuthFiles.ClientFiles, AuthFiles.AllReplaceable, Valid, Config, Durable, Ready;
      InStepRestarts();
      var current := store.memory;
      var candidate := current.(publication := enabled);
      var ok := Validate(candidate);
      if !ok { return NotAllowed; }
      ok := Publish(enabled, current.publication, f);
      if !ok { return Refused; }
      var v, undo := Commit(candidate, true, f.commit);
      if undo { Unpublish(current.publication, true, f); }
      ConfigFrame(renderer, current, candidate);
      RestartsAfter(store.file.target, run.disk.dirs, run.disk.dirs, identity, current, candidate);
      r := ReplyOf(v);
    }

    /** Writes torrc, has Tor check it and reload. A write that fails late is not undone. */
    method Publish(enabled: bool, prior: bool, f: PublishFate) returns (ok: bool)
      requires run.torrc == prior && run.tor == OnDisk(run.disk.dirs, run.torrc)
      modifies run`torrc, run`tor, run`moments, run`undos
      ensures ok <==> f.write.Fine? && f.accepted && f.reload.Fine?
      ensures ok ==> run.torrc == enabled && run.tor == OnDisk(run.disk.dirs, run.torrc)
      ensures !ok && PublishKept(f) ==> run.tor == OnDisk(run.disk.dirs, prior)
      ensures !ok && PublishKept(f) ==> run.torrc == if f.write.Misreported? then enabled else prior
      ensures run.undos == old(run.undos) + (if !ok && f.write.Fine? then 1 else 0)
    {
      ok := run.WriteConfig(enabled, f.write);
      if !ok { return; }
      if !f.accepted {
        run.undos := run.undos + 1;
        var back := run.WriteConfig(prior, f.undoWrite);
        return false;
      }
      ok := run.ReloadTor(f.reload);
      if !ok { Unpublish(prior, false, f); }
    }

    /** After a failed reload the old configuration is reloaded even if writing it failed; after
        a failed commit it is not. */
    method Unpublish(publication: bool, stopAtError: bool, f: PublishFate)
      modifies run`torrc, run`tor, run`moments, run`undos
      ensures run.undos == old(run.undos) + 1
      ensures PublishKept(f) ==> run.torrc == publication && run.tor == OnDisk(run.disk.dirs, run.torrc)
    {
      run.undos := run.undos + 1;
      var ok := run.WriteConfig(publication, f.undoWrite);
      if !ok && stopAtError { return; }
      ok := run.ReloadTor(f.undoReload);
    }

    // ----- Clients -----

    /** Authorizes a client and has Tor reload. */
    method Admit(id: string, key: string, f: ClientFate) returns (ok: bool)
      requires HasClients(run.disk.dirs) && AuthFiles.FileName(id) !in ClientsIn(run.disk.dirs)
      requires run.tor == OnDisk(run.disk.dirs, run.torrc)
      modifies run`tor, run`moments, run`undos, run.disk
      ensures ok <==> f.edit.Fine? && CanWrite(old(run.disk.dirs), id, key) && f.reload.Fine?
      ensures OnlyClients(old(run.disk.dirs), run.disk.dirs)
      ensures ok ==> ClientsIn(run.disk.dirs) == ClientsIn(old(run.disk.dirs))[AuthFiles.FileName(id) := ClientFile(key)]
      ensures ok || ClientKept(f) ==> run.tor == OnDisk(run.disk.dirs, run.torrc)
      ensures !ok && ClientKept(f) ==> ClientsIn(run.disk.dirs) == ClientsIn(old(run.disk.dirs))
      ensures run.undos == old(run.undos) + (if ok then 0 else 1)
    {
      hide AuthFiles.ClientFiles, AuthFiles.AddsRegular, SameBut;
      ok := run.WriteAuthorization(id, key, f.edit);
      if ok { ok := run.ReloadTor(f.reload); }
      if !ok {
        ghost var halfway := run.disk.dirs;
        Unadmit(id, f);
        OnlyClientsTwice(old(run.disk.dirs), halfway, run.disk.dirs);
      }
    }

    /** The removal's error is ignored; only the reload's is reported. */
    method Unadmit(id: string, f: ClientFate)
      requires HasClients(run.disk.dirs)
      modifies run`tor, run`moments, run`undos, run.disk
      ensures OnlyClients(old(run.disk.dirs), run.disk.dirs)
      ensures run.undos == old(run.undos) + 1
      ensures ClientKept(f) ==> ClientsIn(run.disk.dirs) == ClientsIn(old(run.disk.dirs)) - {AuthFiles.FileName(id)}
      ensures ClientKept(f) ==> run.tor == OnDisk(run.disk.dirs, run.torrc)
    {
      run.undos := run.undos + 1;
      var ok := run.RemoveAuthorization(id, f.undoEdit);
      ok := run.ReloadTor(f.undoReload);
    }

    /** Takes a client's authorization away and has Tor reload. */
    method Expel(id: string, key: string, f: ClientFate) returns (ok: bool)
      requires HasClients(run.disk.dirs) && ValidId(id) && ValidKey(key)
      requires AuthFiles.FileName(id) in ClientsIn(run.disk.dirs) && ClientsIn(run.disk.dirs)[AuthFiles.FileName(id)] == ClientFile(key)
      requires run.tor == OnDisk(run.disk.dirs, run.torrc)
      modifies run`tor, run`moments, run`undos, run.disk
      ensures ok <==> f.edit.Fine? && f.reload.Fine?
      ensures OnlyClients(old(run.disk.dirs), run.disk.dirs)
      ensures ok ==> ClientsIn(run.disk.dirs) == ClientsIn(old(run.disk.dirs)) - {AuthFiles.FileName(id)}
      ensures ok ==> AuthFiles.FileName(id) !in Listed(run.disk.dirs)
      ensures ok || ClientKept(f) ==> run.tor == OnDisk(run.disk.dirs, run.torrc)
      ensures !ok && ClientKept(f) ==> ClientsIn(run.disk.dirs) == ClientsIn(old(run.disk.dirs))
      ensures run.undos == old(run.undos) + (if !ok && f.edit.Fine? then 1 else 0)
    {
      hide AuthFiles.ClientFiles, AuthFiles.AddsRegular, SameBut;
      ok := run.RemoveAuthorization(id, f.edit);
      if !ok { return; }
      ok := run.ReloadTor(f.reload);
      if !ok {
        ghost var halfway := run.disk.dirs;
        Unexpel(id, key, false, f);
        OnlyClientsTwice(old(run.disk.dirs), halfway, run.disk.dirs);
      }
    }

    method Unexpel(id: string, key: string, stopAtError: bool, f: ClientFate)
      requires CanWrite(run.disk.dirs, id, key)
      modifies run`tor, run`moments, run`undos, run.disk
      ensures OnlyClients(old(run.disk.dirs), run.disk.dirs)
      ensures run.undos == old(run.undos) + 1
      ensures ClientKept(f) ==> ClientsIn(run.disk.dirs) == ClientsIn(old(run.disk.dirs))[AuthFiles.FileName(id) := ClientFile(key)]
      ensures ClientKept(f) ==> run.tor == OnDisk(run.disk.dirs, run.torrc)
    {
      run.undos := run.undos + 1;
      var ok := run.WriteAuthorization(id, key, f.undoEdit);
      if !ok && stopAtError { return; }
      ok := run.ReloadTor(f.undoReload);
    }

    /** A new device waits for acknowledgement. The identifier, the secret and the time are the
        caller's random values and clock. */
    method CreateDevice(name: string, id: string, secret: string, now: Time, f: ClientFate)
      returns (r: Reply, credential: string)
      requires Agree()
      modifies run`tor, run`moments, run`undos, run.disk, store, store.file
      ensures r.NotAllowed? <==> !CanCreate(old(store.memory), NewPending(name, id, secret, rotator.publicOf(secret), now))
      ensures r.Committed? <==>
                && !r.NotAllowed? && CanWrite(old(run.disk.dirs), id, rotator.publicOf(secret))
                && f.edit.Fine? && f.reload.Fine? && f.commit.Written?
      ensures r.Crashed? ==> f.commit.Crashed?
      ensures r.Committed? ==>
                && Agree()
                && store.memory == old(store.memory).(pending := Some(NewPending(name, id, secret, rotator.publicOf(secret), now)))
      ensures r.Committed? ==>
                store.memory.pending == Some(PendingDevice(Device(id, name, rotator.publicOf(secret), now, 0), secret,
                                                           now + 15 * 60 * 1_000_000_000))
      ensures r.Committed? ==> credential == store.memory.serviceId + ":descriptor:x25519:" + secret
      ensures r.Committed? ==>
                forall other, key :: Admits(run.tor, other, key) <==>
                                     Admits(old(run.tor), other, key) || (other == id && key == rotator.publicOf(secret))
      ensures r.Committed? ==> forall t :: CanAcknowledge(store.memory, id, t) <==> t < now + 15 * 60 * 1_000_000_000
      ensures r.NotAllowed? || (r.Refused? && ClientKept(f)) ==> Agree() && store.memory == old(store.memory)
      ensures run.undos == old(run.undos) + (if r.Refused? then 1 else 0)
      ensures Restartable()
    {
      hide AuthFiles.FilesOf, AuthFiles.ClientFiles, Config, Durable, Ready;
      InStepRestarts();
      var current := store.memory;
      credential := "";
      if !current.initialized || current.pending.Some? || |current.devices| >= MAX_DEVICES { return NotAllowed, ""; }
      AdmitsItsClients();
      var pending := NewPending(name, id, secret, rotator.publicOf(secret), now);
      var candidate := current.(pending := Some(pending));
      var ok := Validate(candidate);
      if !ok || CredentialText(current.serviceId, secret).None? { return NotAllowed, ""; }
      NotADevice(current.devices, id);
      r := AdmitAndCommit(candidate, id, pending.device.publicKey, f);
      if r.Committed? {
        AdmitsItsClients();
        credential := CredentialText(current.serviceId, secret).value;
      }
    }

    /** Applies and commits a state that authorizes one client more. */
    method AdmitAndCommit(candidate: State, id: string, key: string, f: ClientFate) returns (r: Reply)
      requires Agree() && Valid(candidate) && SameWeb(store.memory, candidate) && candidate.publication == store.memory.publication
      requires id !in Authorized(store.memory) && Authorized(candidate) == Authorized(store.memory)[id := key]
      modifies run`tor, run`moments, run`undos, run.disk, store, store.file
      ensures r.Committed? <==> f.edit.Fine? && CanWrite(old(run.disk.dirs), id, key) && f.reload.Fine? && f.commit.Written?
      ensures !r.NotAllowed? && (r.Crashed? ==> f.commit.Crashed?)
      ensures store.memory == if r.Committed? then candidate else old(store.memory)
      ensures r.Committed? || (r.Refused? && ClientKept(f)) ==> Agree()
      ensures run.undos == old(run.undos) + (if r.Refused? then 1 else 0)
      ensures Restartable()
    {
      hide AuthFiles.FilesOf, AuthFiles.ClientFiles, AuthFiles.AddsRegular, AuthFiles.AllReplaceable, SameBut, Config, Valid, Durable, Ready, Mappings.InOrder;
      InStepRestarts();
      ghost var current, start := store.memory, run.disk.dirs;
      AuthFiles.FileOf(Authorized(current), id);
      AuthFiles.FilesOfMore(Authorized(current), id, key);
      var ok := Admit(id, key, f);
      ClientsLeaveIdentity(start, run.disk.dirs, current.serviceId, identity);
      if !ok {
        RestartsAfter(store.file.target, run.disk.dirs, start, identity, current, candidate);
        return Refused;
      }
      MoreReconciles(start, Authorized(current), id, key);
      ghost var applied := run.disk.dirs;
      var v, undo := Commit(candidate, true, f.commit);
      if undo {
        Unadmit(id, f);
        OnlyClientsTwice(start, applied, run.disk.dirs);
        ClientsLeaveIdentity(applied, run.disk.dirs, current.serviceId, identity);
      }
      RestartsAfter(store.file.target, run.disk.dirs, start, identity, current, candidate);
      ConfigFrame(renderer, current, candidate);
      r := ReplyOf(v);
    }

    /** Applies and commits a state that authorizes one client less. */
    method ExpelAndCommit(candidate: State, id: string, key: string, f: ClientFate) returns (r: Reply)
      requires Agree() && Valid(candidate) && SameWeb(store.memory, candidate) && candidate.publication == store.memory.publication
      requires id in Authorized(store.memory) && Authorized(store.memory)[id] == key
      requires Authorized(candidate) == Authorized(store.memory) - {id}
      modifies run`tor, run`moments, run`undos, run.disk, store, store.file
      ensures r.Committed? <==> f.edit.Fine? && f.reload.Fine? && f.commit.Written?
      ensures !r.NotAllowed? && (r.Crashed? ==> f.commit.Crashed?)
      ensures store.memory == if r.Committed? then candidate else old(store.memory)
      ensures r.Committed? || (r.Refused? && ClientKept(f)) ==> Agree()
      ensures run.undos == old(run.undos) + (if r.Refused? && f.edit.Fine? then 1 else 0)
      ensures Restartable()
    {
      hide AuthFiles.FilesOf, AuthFiles.ClientFiles, AuthFiles.AddsRegular, AuthFiles.AllReplaceable, SameBut, Config, Valid, Durable, Ready, Mappings.InOrder;
      InStepRestarts();
      ghost var current, start := store.memory, run.disk.dirs;
      FewerReconcile(start, Authorized(current), Authorized(candidate));
      AuthorizedRecords(current, id);
      AuthFiles.FileOf(Authorized(current), id);
      AuthFiles.FilesOfLess(Authorized(current), id);
      var ok := Expel(id, key, f);
      ClientsLeaveIdentity(start, run.disk.dirs, current.serviceId, identity);
      if !ok {
        RestartsAfter(store.file.target, run.disk.dirs, start, identity, current, candidate);
        return Refused;
      }
      ghost var applied := run.disk.dirs;
      var v, undo := Commit(candidate, true, f.commit);
      if undo {
        Unexpel(id, key, true, f);
        OnlyClientsTwice(start, applied, run.disk.dirs);
        ClientsLeaveIdentity(applied, run.disk.dirs, current.serviceId, identity);
      }
      RestartsAfter(store.file.target, run.disk.dirs, start, identity, current, candidate);
      ConfigFrame(renderer, current, candidate);
      r := ReplyOf(v);
    }

    /** A device is recorded once its owner has the credential; nothing outside changes. */
    method AcknowledgeDevice(id: string, now: Time, fate: Outcome) returns (r: Reply)
      requires Agree()
      modifies store, store.file
      ensures r.NotAllowed? <==> !CanAcknowledge(old(store.memory), id, now)
      ensures r.Committed? <==> !r.NotAllowed? && |old(store.memory).devices| < MAX_DEVICES && now != 0 && fate.Written?
      ensures r.Crashed? ==> fate.Crashed?
      ensures r.Committed? ==> Agree() && store.memory == Acknowledged(old(store.memory), now)
      ensures r.Committed? ==>
                exists p | old(store.memory).pending == Some(p) ::
                  && p.device.id == id && now < p.expiresAt
                  && store.memory == old(store.memory).(pending := None,
                                                        devices := old(store.memory).devices + [p.device.(acknowledgedAt := now)])
      ensures r.NotAllowed? || (r.Refused? && !fate.Late?) ==> Agree() && store.memory == old(store.memory)
      ensures Restartable()
    {
      hide AuthFiles.FilesOf, AuthFiles.ClientFiles, AuthFiles.AllReplaceable, Config, Valid, Durable, Ready;
      InStepRestarts();
      var current := store.memory;
      if !CanAcknowledge(current, id, now) { return NotAllowed; }
      var candidate := Acknowledged(current, now);
      AcknowledgedKeys(current.devices, current.pending.value, current.pending.value.device.(acknowledgedAt := now));
      AcknowledgedValid(current, now);
      var v, undo := Commit(candidate, false, fate);
      ConfigFrame(renderer, current, candidate);
      RestartsAfter(store.file.target, run.disk.dirs, run.disk.dirs, identity, current, candidate);
      r := ReplyOf(v);
    }

    method RevokeDevice(id: string, f: ClientFate) returns (r: Reply)
      requires Agree()
      modifies run`tor, run`moments, run`undos, run.disk, store, store.file
      ensures r.NotAllowed? <==> id !in AuthFiles.DeviceKeys(old(store.memory).devices) || !Valid(Revoked(old(store.memory), id))
      ensures r.Committed? <==> !r.NotAllowed? && f.edit.Fine? && f.reload.Fine? && f.commit.Written?
      ensures r.Crashed? ==> f.commit.Crashed?
      ensures r.Committed? ==> Agree() && store.memory == Revoked(old(store.memory), id)
      ensures r.Committed? ==> exists i | 0 <= i < |old(store.memory).devices| :: TakenOut(old(store.memory), i, id, store.memory)
      ensures r.Committed? ==>
                forall other, key :: Admits(run.tor, other, key) <==> Admits(old(run.tor), other, key) && other != id
      ensures r.NotAllowed? || (r.Refused? && ClientKept(f)) ==> Agree() && store.memory == old(store.memory)
      ensures run.undos == old(run.undos) + (if r.Refused? && f.edit.Fine? then 1 else 0)
      ensures Restartable()
    {
      hide AuthFiles.FilesOf, AuthFiles.ClientFiles, AuthFiles.DeviceKeys, AuthFiles.Expected, WithoutDevice;
      hide Config, Valid, Durable, Ready;
      InStepRestarts();
      var current := store.memory;
      var removed, kept := Split(current.devices, id);
      if removed.None? { NotADevice(current.devices, id); } else { NotPending(current, removed.value); }
      if current.publication && |kept| == 0 { LastPublished(current, id); }
      if removed.None? || (current.publication && |kept| == 0) { return NotAllowed; }
      var candidate := current.(devices := kept);
      var ok := Validate(candidate);
      if !ok { return NotAllowed; }
      AdmitsItsClients();
      r := ExpelAndCommit(candidate, id, removed.value.publicKey, f);
      if r.Committed? {
        AdmitsItsClients();
        var i := RevokedOnce(current, id);
        RevokedClients(current, id);
      }
    }

    /** The devices without `id`, and the one that had it. */
    method Split(devices: seq<Device>, id: string) returns (removed: Option<Device>, kept: seq<Device>)
      ensures kept == WithoutDevice(devices, id)
      ensures removed.Some? ==> removed.value in devices && removed.value.id == id
      ensures removed.None? ==> forall i | 0 <= i < |devices| :: devices[i].id != id
    {
      removed, kept := None, [];
      for i := 0 to |devices|
        invariant kept == WithoutDevice(devices[..i], id)
        invariant removed.Some? ==> removed.value in devices && removed.value.id == id
        invariant removed.None? ==> forall j | 0 <= j < i :: devices[j].id != id
      {
        assert devices[..i + 1][..i] == devices[..i];
        if devices[i].id == id { removed := Some(devices[i]); } else { kept := kept + [devices[i]]; }
      }
      assert devices[..|devices|] == devices;
    }

    method ExpirePending(now: Time, f: ClientFate) returns (r: Reply)
      requires Agree()
      modifies run`tor, run`moments, run`undos, run.disk, store, store.file
      ensures !r.NotAllowed? && (r.Crashed? ==> f.commit.Crashed?)
      ensures r.Committed? <==>
                Unexpired(old(store.memory), now) == old(store.memory) || (f.edit.Fine? && f.reload.Fine? && f.commit.Written?)
      ensures r.Committed? ==> Agree() && store.memory == Unexpired(old(store.memory), now)
      ensures r.Committed? ==> forall id, key :: Admits(run.tor, id, key) <==> Admits(old(run.tor), id, key) && !old(Overdue(id, now))
      ensures r.Refused? && ClientKept(f) ==> Agree() && store.memory == old(store.memory)
      ensures run.undos == old(run.undos) + (if r.Refused? && f.edit.Fine? then 1 else 0)
      ensures Restartable()
    {
      hide AuthFiles.FilesOf, AuthFiles.ClientFiles, Config, Valid, Durable, Ready;
      InStepRestarts();
      var current := store.memory;
      if current.pending.None? || current.pending.value.expiresAt > now { return Committed; }
      var pending := current.pending.value;
      PendingClient(current);
      StillValid(current, now);
      AdmitsItsClients();
      r := ExpelAndCommit(current.(pending := None), pending.device.id, pending.device.publicKey, f);
      if r.Committed? {
        AdmitsItsClients();
        WithoutPending(current);
      }
    }

    /** The pending device of this identifier has had its time. */
    predicate Overdue(id: string, now: Time)
      reads store
    {
      store.memory.pending.Some? && store.memory.pending.value.device.id == id && store.memory.pending.value.expiresAt <= now
    }

    /** Brings client files and Tor in step with the state, dropping an expired pending device.
        A failed attempt puts the files back but does not reload: Tor is then out of step exactly
        when the reload took effect although it reported an error and a pending device had expired. */
    method ReconcileTor(now: Time, f: ReconcileFate) returns (r: Reply)
      requires TorSide()
      modifies run`tor, run`moments, run`undos, run.disk, store, store.file
      ensures !r.NotAllowed? && (r.Crashed? ==> f.commit.Crashed?)
      ensures r.Committed? <==> ReconcileWorks(f)
      ensures r.Committed? ==> TorSide() && store.memory == Unexpired(old(store.memory), now)
      ensures !r.Committed? ==> store.memory == old(store.memory)
      ensures OnlyClients(old(run.disk.dirs), run.disk.dirs)
      ensures r.Refused? && ReconcileKept(f) ==> (TorSide() <==> !Strays(store.memory, now, f))
      ensures run.undos == old(run.undos) + (if r.Refused? then 1 else 0)
      ensures Restartable()
    {
      hide AuthFiles.FilesOf, AuthFiles.ClientFiles, AuthFiles.AllReplaceable, AuthFiles.AddsRegular, AuthFiles.Expected;
      hide Valid, SameBut, Recoverable, Durable, Ready;
      InStepRestarts();
      var current := store.memory;
      ghost var start := run.disk.dirs;
      var candidate := Unexpired(current, now);
      UnexpiredClients(current, now);
      StillValid(current, now);
      FewerReconcile(start, Authorized(current), Authorized(candidate));
      var ok := ApplyClients(candidate, f.files, f.reload);
      ghost var halfway := run.disk.dirs;
      StillReconciles(start, halfway, Authorized(current));
      ClientsLeaveIdentity(start, halfway, current.serviceId, identity);
      if ok {
        r := CommitReconcile(candidate, f, start);
      } else {
        PutFilesBack(current, f);
        OnlyClientsTwice(start, halfway, run.disk.dirs);
        ClientsLeaveIdentity(start, run.disk.dirs, current.serviceId, identity);
        RestartsAfter(store.file.target, run.disk.dirs, start, identity, current, candidate);
        FilesTellApart(current, now);
        r := Refused;
      }
    }

    /** Files and Tor have the candidate's clients; the state follows, or they go back. */
    method CommitReconcile(candidate: State, f: ReconcileFate, ghost start: Dirs) returns (r: Reply)
      requires Settled(store.memory, store.file.target) && Running(store.memory) && Valid(candidate)
      requires SameWeb(store.memory, candidate) && candidate.publication == store.memory.publication
      requires TorInStep(candidate, run.disk.dirs, run.torrc, run.tor) && identity == run.disk.dirs[Active].files
      requires OnlyClients(start, run.disk.dirs) && IdAt(start, Active) == Some(store.memory.serviceId)
      requires CanReconcile(start, Authorized(store.memory)) && CanReconcile(start, Authorized(candidate))
      modifies run`tor, run`moments, run`undos, run.disk, store, store.file
      ensures !r.NotAllowed? && (r.Committed? <==> f.commit.Written?) && (r.Crashed? ==> f.commit.Crashed?)
      ensures store.memory == if r.Committed? then candidate else old(store.memory)
      ensures OnlyClients(start, run.disk.dirs)
      ensures r.Committed? || (r.Refused? && ReconcileKept(f)) ==> TorSide()
      ensures run.undos == old(run.undos) + (if r.Refused? then 1 else 0)
      ensures Restartable()
    {
      hide AuthFiles.FilesOf, AuthFiles.ClientFiles, AuthFiles.AllReplaceable, AuthFiles.AddsRegular, AuthFiles.Expected;
      hide Valid, SameBut, Recoverable, Durable, Ready;
      ghost var current, halfway := store.memory, run.disk.dirs;
      StillReconciles(start, halfway, Authorized(current));
      var v, undo := Commit(candidate, true, f.commit);
      if undo {
        run.undos := run.undos + 1;
        var back := ApplyClients(store.memory, f.undoFiles, f.undoReload);
        OnlyClientsTwice(start, halfway, run.disk.dirs);
        ClientsLeaveIdentity(halfway, run.disk.dirs, current.serviceId, identity);
      }
      RestartsAfter(store.file.target, run.disk.dirs, start, identity, current, candidate);
      r := ReplyOf(v);
    }

    /** The answer to a failed attempt: the files, and no reload. */
    method PutFilesBack(current: State, f: ReconcileFate)
      requires CanReconcile(run.disk.dirs, Authorized(current))
      modifies run`undos, run.disk
      ensures run.undos == old(run.undos) + 1
      ensures OnlyClients(old(run.disk.dirs), run.disk.dirs)
      ensures f.filesBack ==> ClientsIn(run.disk.dirs) == AuthFiles.FilesOf(Authorized(current))
    {
      run.undos := run.undos + 1;
      var back := run.Reconcile(current.devices, current.pending, f.filesBack);
    }

    method ApplyClients(s: State, files: bool, reload: Fate) returns (ok: bool)
      requires CanReconcile(run.disk.dirs, Authorized(s))
      modifies run`tor, run`moments, run.disk
      ensures ok <==> files && reload.Fine?
      ensures OnlyClients(old(run.disk.dirs), run.disk.dirs)
      ensures files ==> ClientsIn(run.disk.dirs) == AuthFiles.FilesOf(Authorized(s))
      ensures run.tor == if files && !reload.Fails? then OnDisk(run.disk.dirs, run.torrc) else old(run.tor)
    {
      ok := run.Reconcile(s.devices, s.pending, files);
      if ok { ok := run.ReloadTor(reload); }
    }

    // ----- Caddy -----

    /** Setup and the mapping operations: mutate, validate, render, apply, commit. */
    method ComponentChange(change: Change, f: WebFate) returns (r: Reply)
      requires Agree()
      modifies run`live, run`moments, run`undos, store, store.file
      ensures r.NotAllowed? <==> !CanChange(old(store.memory), change)
      ensures r.Committed? ==> Agree() && Changed(old(store.memory), change, store.memory)
      ensures r.Committed? ==> f.apply.Fine? && f.commit.Written?
      ensures r.Refused? && f.apply.Fine? && f.commit.Written? ==>
                forall t | Changed(old(store.memory), change, t) && Mappings.InOrder(t.mappings) :: !Valid(t)
      ensures r.Crashed? ==> f.commit.Crashed?
      ensures r.NotAllowed? || (r.Refused? && WebKept(f)) ==> Agree() && store.memory == old(store.memory)
      ensures !r.Refused? ==> run.undos == old(run.undos)
      ensures r.Refused? ==> run.undos == old(run.undos) + 1 || (run.undos == old(run.undos) && run.live == old(run.live))
      ensures r.Refused? && run.undos == old(run.undos) ==>
                forall t | Changed(old(store.memory), change, t) && Mappings.InOrder(t.mappings) :: !Valid(t)
      ensures Restartable()
    {
      hide AuthFiles.FilesOf, AuthFiles.ClientFiles, AuthFiles.AllReplaceable, Config, Valid, Changed, Durable, Ready, Mappings.InOrder;
      InStepRestarts();
      var current := store.memory;
      if !current.initialized && current.sessions != [] { return NotAllowed; }
      var ok, candidate := Mutate(current, change);
      if !ok || !candidate.initialized { return NotAllowed; }
      ChangedOnce(current, change, candidate);
      ok := ApplyState(candidate, current, f);
      if !ok { return Refused; }
      r := CommitChange(candidate, f);
    }

    /** The new configuration is live; the state follows, or the old one is applied again. */
    method CommitChange(candidate: State, f: WebFate) returns (r: Reply)
      requires TorSide() && Wired() && SafeRenderer(renderer) && Valid(candidate) && Running(candidate)
      requires candidate.serviceId == store.memory.serviceId && candidate.publication == store.memory.publication
      requires candidate.devices == store.memory.devices && candidate.pending == store.memory.pending
      requires run.live == Config(renderer, candidate)
      requires run.authelia == Authelia(store.memory.serviceId, store.memory.serviceId, store.memory.serviceId)
      modifies run`live, run`moments, run`undos, store, store.file
      ensures !r.NotAllowed? && (r.Committed? <==> f.commit.Written?) && (r.Crashed? ==> f.commit.Crashed?)
      ensures store.memory == if r.Committed? then candidate else old(store.memory)
      ensures r.Committed? || (r.Refused? && WebKept(f)) ==> Agree()
      ensures run.undos == old(run.undos) + (if r.Refused? then 1 else 0)
      ensures Restartable()
    {
      hide AuthFiles.FilesOf, AuthFiles.ClientFiles, AuthFiles.AllReplaceable, Config, Valid, Durable, Ready, Mappings.InOrder;
      InStepRestarts();
      var current := store.memory;
      var v, undo := Commit(candidate, true, f.commit);
      if undo {
        run.undos := run.undos + 1;
        var back := ReconcileCaddy(current, f.undo);
      }
      RestartsAfter(store.file.target, run.disk.dirs, run.disk.dirs, identity, current, candidate);
      r := ReplyOf(v);
    }

    /** Renders and applies a new state; a failed apply is answered by applying the old one. */
    method ApplyState(candidate: State, current: State, f: WebFate) returns (ok: bool)
      requires run.live == Config(renderer, current) && CanRender(renderer, current) && renderer.aliases == []
      modifies run`live, run`moments, run`undos
      ensures ok <==> Valid(candidate) && f.apply.Fine?
      ensures ok ==> run.live == Config(renderer, candidate)
      ensures !ok && WebKept(f) ==> run.live == Config(renderer, current)
      ensures !Valid(candidate) ==> run.live == old(run.live)
      ensures run.undos == old(run.undos) + (if Valid(candidate) && !f.apply.Fine? then 1 else 0)
    {
      var site;
      ok, site := Render(renderer, candidate);
      if !ok { return; }
      ok := run.ApplyCaddy(site, f.apply);
      if !ok {
        run.undos := run.undos + 1;
        var back := ReconcileCaddy(current, f.undo);
      }
    }

    method ReconcileCaddy(s: State, fate: Fate) returns (ok: bool)
      modifies run`live, run`moments
      ensures ok <==> CanRender(renderer, s) && fate.Fine?
      ensures ok ==> run.live == Config(renderer, s)
      ensures !ok ==> run.live == old(run.live) || run.live == Config(renderer, s)
    {
      var site;
      ok, site := Render(renderer, s);
      if !ok { return; }
      ok := run.ApplyCaddy(site, fate);
    }

    /** Session and token operations touch no component. */
    method PlainChange(next: State, fate: Outcome) returns (r: Reply)
      requires Agree() && SameOutside(store.memory, next)
      modifies store, store.file
      ensures !r.NotAllowed? && (r.Crashed? ==> fate.Crashed?)
      ensures r.Committed? <==> Valid(next) && fate.Written?
      ensures r.Committed? ==> Agree() && store.memory == next
      ensures r.Refused? && !fate.Late? ==> Agree() && store.memory == old(store.memory)
      ensures Restartable()
    {
      hide AuthFiles.FilesOf, AuthFiles.ClientFiles, AuthFiles.AllReplaceable, Config, Valid, Durable, Ready;
      InStepRestarts();
      var current := store.memory;
      var v, undo := Commit(next, false, fate);
      ConfigFrame(renderer, current, next);
      RestartsAfter(store.file.target, run.disk.dirs, run.disk.dirs, identity, current, next);
      r := ReplyOf(v);
    }

    /** The supervisor restarts Tor, which reads the disk again. */
    method TorRestarts(fate: Fate)
      requires Agree()
      modifies run`tor, run`moments
      ensures Agree()
    {
      var ok := run.ReloadTor(fate);
    }

    /** The supervisor restarts Caddy, which starts denying everything and is then reconciled. */
    method CaddyRestarts(fate: Fate) returns (ok: bool)
      requires Agree()
      modifies run`live, run`moments
      ensures ok == fate.Fine?
      ensures ok ==> Agree()
      ensures run.live == DenyAll || Agree()
      ensures Restartable()
    {
      InStepRestarts();
      var started := run.ApplyCaddy(DenyAll, Fine);
      ok := ReconcileCaddy(store.memory, fate);
    }

    // ----- Rotation -----

    /** All of it or, after a working rollback, none of it, with two exact exceptions: an activation
        that strands the old directory, and a state write that reports an error after its rename.
        However it ends, even by a crash, a restart recovers the identity the state file names,
        unless the state write failed late. */
    method RotateIdentity(confirmed: bool, n: nat, generated: Files, secrets: seq<string>, f: RotateFate)
      returns (r: Reply, cs: seq<Credential>)
      requires Agree() && IdOf(generated) != Some(store.memory.serviceId)
      modifies `identity, run`tor, run`authelia, run`live, run`moments, run`undos, run.disk, store, store.file
      ensures r.NotAllowed? <==> !confirmed || !CanRotate(old(store.memory))
      ensures r.NotAllowed? ==> Agree() && store.memory == old(store.memory) && run.disk.dirs == old(run.disk.dirs)
      ensures r.NotAllowed? ==> run.tor == old(run.tor) && run.authelia == old(run.authelia) && run.live == old(run.live)
      ensures r.Committed? <==> !r.NotAllowed? && old(Reaches(n, generated, secrets, f)) && f.commit.Written? && !f.finish.Crash?
      ensures r.Crashed? ==> RotationCrashes(f.rotation) || f.commit.Crashed? || f.finish.Crash?
      ensures r.Committed? ==> Agree() && identity == generated
      ensures r.Committed? ==>
                store.memory == Candidate(old(store.memory).(sessions := []), generated, secrets, rotator.publicOf)
      ensures r.Committed? ==> Belong(cs, store.memory.devices, store.memory.serviceId, secrets)
      ensures r.Committed? ==> RekeysEach(old(store.memory).(sessions := []), store.memory, secrets, rotator.publicOf)
      ensures r.Committed? ==> OpenForAll(store.memory, run.tor, cs, secrets, rotator.publicOf)
      ensures r.Committed? ==> CoveredFrom(run.moments, |old(run.moments)|) && run.undos == old(run.undos)
      ensures r.Refused? ==> store.memory == old(store.memory)
      ensures r.Refused? && Undoes(f.rotation.back) ==>
                (Agree() <==> !old(Strands(n, generated, secrets, f)) && !old(Loses(n, generated, secrets, f)))
      ensures r.Refused? && Undoes(f.rotation.back) && Agree() ==>
                && run.disk.dirs[Active] == old(run.disk.dirs)[Active]
                && run.tor == old(run.tor) && run.authelia == old(run.authelia) && run.live == old(run.live)
      ensures identity == old(identity) ||
              (identity == generated && Reopened(store.file.target).Some? &&
               Some(Reopened(store.file.target).value.serviceId) == IdOf(generated))
      ensures !old(Loses(n, generated, secrets, f)) ==> Restartable()
      ensures r.Refused? && old(Loses(n, generated, secrets, f)) && Undoes(f.rotation.back) ==>
                forall files :: !Durable(store.file.target, run.disk.dirs, files)
      ensures r.Refused? && f.rotation.stage.Done? && old(Stages(n, generated, secrets)) ==> run.undos == old(run.undos) + 1
      ensures r.Refused? && old(Strands(n, generated, secrets, f)) && Undoes(f.rotation.back) ==> Active !in run.disk.dirs
      ensures run.undos <= old(run.undos) + 1
    {
      hide AuthFiles.FilesOf, AuthFiles.ClientFiles, AuthFiles.AllReplaceable, Config, Valid;
      hide Durable, Ready, Belong, CoveredFrom, Recoverable, Stageable, Admits, IsClient, OpenForAll, RekeysEach, Rekeyed;
      hide AuthFiles.DeviceKeys, Settles, SafeRenderer;
      InStepRestarts();
      var current := store.memory;
      if !confirmed || !current.initialized || current.pending.Some? || current.devices == [] { return NotAllowed, []; }
      var base := current.(sessions := []);
      ConfigFrame(renderer, current, base);
      StillValid(current, 0);
      ghost var home := run.disk.dirs[Active];
      var v, candidate;
      v, candidate, cs := rotator.Apply(base, n, generated, secrets, f.rotation, home);
      if v.Done? {
        r := CommitRotation(base, candidate, n, f, home, generated);
        if r.Committed? {
          AdmitsItsClients();
          CredentialsOpen(base, store.memory, run.tor, cs, secrets, rotator.publicOf);
        }
      } else {
        RotationRestarts(store.file.target, run.disk.dirs, current, home);
        r := if v.Crash? then Reply.Crashed else Refused;
      }
    }

    /** The new identity can be staged. */
    predicate Stages(n: nat, generated: Files, secrets: seq<string>)
      reads store, run.disk
    {
      Stageable(run.disk.dirs, n, store.memory.(sessions := []), generated, secrets, rotator.publicOf)
    }

    /** The forward run gets to the state write. */
    predicate Reaches(n: nat, generated: Files, secrets: seq<string>, f: RotateFate)
      reads store, run.disk
    {
      && rotator.Rotates(run.disk.dirs, n, store.memory.(sessions := []), generated, secrets, f.rotation)
      && Forwards(f.rotation.forward)
    }

    /** The activation is reached and strands the old directory. */
    predicate Strands(n: nat, generated: Files, secrets: seq<string>, f: RotateFate)
      reads store, run.disk
    {
      && CanRotate(store.memory)
      && rotator.Rotates(run.disk.dirs, n, store.memory.(sessions := []), generated, secrets, f.rotation)
      && Rotation.Strands(f.rotation.forward)
    }

    /** The state write is reached and reports an error after its rename. */
    predicate Loses(n: nat, generated: Files, secrets: seq<string>, f: RotateFate)
      reads store, run.disk
    {
      CanRotate(store.memory) && Reaches(n, generated, secrets, f) && f.commit.Late?
    }

    /** The components stand at the new identity; the state follows, or they go back. */
    method CommitRotation(base: State, candidate: State, n: nat, f: RotateFate, ghost home: Dir, ghost generated: Files)
      returns (r: Reply)
      requires Settled(store.memory, store.file.target) && Running(store.memory) && base == store.memory.(sessions := [])
      requires base.initialized && base.pending.None? && Wired() && CanRender(renderer, base) && CanRender(renderer, candidate)
      requires run.torrc == base.publication && identity == home.files
      requires candidate == Rotated(base, candidate.serviceId, candidate.devices)
      requires ValidServiceId(candidate.serviceId) && candidate.serviceId != base.serviceId
      requires Previous in run.disk.dirs && run.disk.dirs[Previous] == home
      requires IdOf(home.files) == Some(base.serviceId) && ClientsOf(home) == Some(AuthFiles.FilesOf(Authorized(base)))
      requires home.auth.Some? && AuthFiles.AllReplaceable(home.auth.value, Authorized(base))
      requires StandsAt(run.disk.dirs, run.torrc, run.tor, run.authelia, run.live,
                        NewHome(generated, candidate.devices), candidate.serviceId, Config(renderer, candidate))
      modifies `identity, run`tor, run`authelia, run`live, run`moments, run`undos, run.disk, store, store.file
      ensures !r.NotAllowed? && (r.Committed? <==> f.commit.Written? && !f.finish.Crash?)
      ensures r.Crashed? ==> f.commit.Crashed? || f.finish.Crash? || UndoingCrashes(f.rotation.back)
      ensures r.Committed? ==> Agree() && store.memory == candidate && identity == generated
      ensures r.Committed? ==> run.moments == old(run.moments) && run.undos == old(run.undos)
      ensures r.Refused? ==> store.memory == old(store.memory)
      ensures r.Refused? && Undoes(f.rotation.back) ==> (Agree() <==> !f.commit.Late?)
      ensures r.Refused? && Undoes(f.rotation.back) ==> Active in run.disk.dirs && run.disk.dirs[Active] == home
      ensures identity == home.files ||
              (identity == generated && Reopened(store.file.target).Some? &&
               Reopened(store.file.target).value.serviceId == candidate.serviceId)
      ensures !f.commit.Late? ==> Restartable()
      ensures r.Refused? && f.commit.Late? && Undoes(f.rotation.back) ==>
                forall files :: !Durable(store.file.target, run.disk.dirs, files)
      ensures r.Refused? ==> run.undos == old(run.undos) + 1
      ensures run.undos <= old(run.undos) + 1
    {
      hide AuthFiles.FilesOf, AuthFiles.ClientFiles, AuthFiles.AllReplaceable, Config, Valid;
      var v := PersistRotation(candidate, f.commit, home, generated);
      if v.Written? {
        var finished := run.disk.Finish(f.finish, candidate.serviceId);
        ClientsOfNewHome(generated, candidate.devices);
        return if finished.Crash? then Reply.Crashed else Committed;
      }
      if v.Crashed? { return Reply.Crashed; }
      ConfigFrame(renderer, store.memory, base);
      var undone := rotator.Rollback(base, n, Progress(Done, true, true), f.rotation.back, home);
      if !v.Late? { RotationRestarts(store.file.target, run.disk.dirs, store.memory, home); }
      r := if undone.Crash? then Reply.Crashed else Refused;
    }

    /** The state write while the new identity is active and the old one is its backup: either
        outcome of the write is recoverable. */
    method PersistRotation(candidate: State, fate: Outcome, ghost home: Dir, ghost generated: Files) returns (v: Outcome)
      requires Settled(store.memory, store.file.target) && Running(store.memory) && identity == home.files
      requires Valid(candidate) && ValidServiceId(candidate.serviceId) && candidate.serviceId != store.memory.serviceId
      requires candidate.mappings == store.memory.mappings
      requires candidate.pending.None? && IdOf(generated) == Some(candidate.serviceId)
      requires Active in run.disk.dirs && run.disk.dirs[Active] == NewHome(generated, candidate.devices)
      requires Previous in run.disk.dirs && run.disk.dirs[Previous] == home && IdOf(home.files) == Some(store.memory.serviceId)
      requires home.auth.Some? && AuthFiles.AllReplaceable(home.auth.value, Authorized(store.memory))
      modifies `identity, store, store.file
      ensures v == fate
      ensures store.memory == if v.Written? then candidate else old(store.memory)
      ensures v.Written? || v.Failed? ==> Settled(store.memory, store.file.target)
      ensures v.Written? ==> identity == generated
      ensures identity == home.files ||
              (identity == generated && Reopened(store.file.target).Some? &&
               Reopened(store.file.target).value.serviceId == candidate.serviceId)
      ensures v.Failed? || v.Late? ==> identity == home.files
      ensures v.Late? ==> Reopened(store.file.target).Some? && Reopened(store.file.target).value.serviceId == candidate.serviceId
      ensures !v.Late? ==> Restartable()
    {
      hide AuthFiles.FilesOf, AuthFiles.ClientFiles, AuthFiles.AllReplaceable;
      NewHomeReplaceable(candidate);
      var undo;
      v, undo := store.Transition(Proposal(Some(candidate), true), fate);
      if v.Written? || (v.Crashed? && Reopened(store.file.target).value.serviceId == candidate.serviceId) {
        identity := generated;
      }
    }

    // ----- Startup -----

    /** From whatever a crash left, startup comes up if its steps work, with everything back in
        step with the durable state, its identity restored exactly and no stage left. A failed or
        crashed one can be repeated. */
    method Startup(now: Time, f: StartFate) returns (up: bool)
      requires Survives() && Wired()
      modifies run, run.disk, store, store.file
      ensures Survives() && (old(CanStart()) ==> CanStart())
      ensures StartWorks(f) && old(CanStart()) ==> up
      ensures up ==> Agree() && store.memory == Unexpired(Reopened(old(store.file.target)).value, now)
      ensures up && AllSwept(f.recover.stages) ==> NoStage(run.disk.dirs)
    {
      hide AuthFiles.FilesOf, AuthFiles.ClientFiles, AuthFiles.AllReplaceable, Valid, Tidy, Config, Mappings.InOrder;
      up := false;
      var loaded := store.Open(f.open);
      if !loaded.Written? { return; }
      var current := store.memory;
      var ok := PrepareTor(current, f);
      if !ok { return; }
      hide Recoverable;
      ok := StartProcesses(current, f);
      if !ok { return; }
      up := BringInStep(now, f);
    }

    /** Tor and Caddy follow the state once the processes run. */
    method BringInStep(now: Time, f: StartFate) returns (up: bool)
      requires TorSide() && Wired()
      requires run.authelia == Authelia(store.memory.serviceId, store.memory.serviceId, store.memory.serviceId)
      modifies run`tor, run`live, run`moments, run`undos, run.disk, store, store.file
      ensures up <==> ReconcileWorks(f.reconcile) && f.caddy.Fine? && SafeRenderer(renderer)
      ensures up ==> Agree() && store.memory == Unexpired(old(store.memory), now)
      ensures SameBut(run.disk.dirs, old(run.disk.dirs), Active)
      ensures Restartable()
    {
      hide AuthFiles.FilesOf, AuthFiles.ClientFiles, AuthFiles.AllReplaceable, Valid, Config, Durable, Ready, Mappings.InOrder;
      var r := ReconcileTor(now, f.reconcile);
      if !r.Committed? { return false; }
      up := ReconcileCaddy(store.memory, f.caddy);
    }

    /** Directories, recovery of the identity, client files, torrc; the first error ends it. */
    method PrepareTor(s: State, f: StartFate) returns (ok: bool)
      requires Recoverable(run.disk.dirs, s.serviceId, identity) && Valid(s)
      modifies run`torrc, run.disk
      ensures StartWorks(f) && Tidy(old(run.disk.dirs), s.serviceId, Authorized(s)) ==> ok
      ensures Tidy(old(run.disk.dirs), s.serviceId, Authorized(s)) ==> Tidy(run.disk.dirs, s.serviceId, Authorized(s))
      ensures Recoverable(run.disk.dirs, s.serviceId, identity)
      ensures ok ==> HoldsFiles(run.disk.dirs, Active, identity)
      ensures ok ==> HasClients(run.disk.dirs) && ClientsIn(run.disk.dirs) == AuthFiles.FilesOf(Authorized(s)) && run.torrc == s.publication
      ensures ok && AllSwept(f.recover.stages) ==> NoStage(run.disk.dirs)
    {
      hide AuthFiles.FilesOf, AuthFiles.ClientFiles, AuthFiles.Expected, Valid;
      RecoverableIsSettled(run.disk.dirs, s.serviceId, identity);
      NewRecords(s);
      var v := run.disk.EnsureAndRecover(s.serviceId, f.ensure, f.recover, identity);
      RecoverableIsSettled(run.disk.dirs, s.serviceId, identity);
      if !v.Done? { return false; }
      ghost var recovered := run.disk.dirs;
      ok := run.Reconcile(s.devices, s.pending, f.clients);
      if HasClients(recovered) {
        ClientsLeaveIdentity(recovered, run.disk.dirs, s.serviceId, identity);
        if CanReconcile(recovered, Authorized(s)) { StillReconciles(recovered, run.disk.dirs, Authorized(s)); }
      }
      if !ok { return; }
      ok := run.WriteConfig(s.publication, f.config);
      ok := ok && f.accepted;                // Tor validates its configuration
    }

    /** Caddy starts denying everything; Tor and Authelia load what has been written. */
    method StartProcesses(s: State, f: StartFate) returns (ok: bool)
      modifies run`tor, run`authelia, run`live, run`moments
      ensures ok <==> f.authelia.Fine? && f.tor.Fine? && f.auth.Fine? && IdAt(run.disk.dirs, Active) == Some(s.serviceId)
      ensures ok ==> run.tor == OnDisk(run.disk.dirs, run.torrc)
      ensures ok ==> run.authelia == Authelia(s.serviceId, s.serviceId, s.serviceId)
    {
      ok := run.WriteAuthelia(s.serviceId, f.authelia);
      if !ok { return; }
      run.authelia := run.authelia.(domain := s.serviceId);
      ok := run.ApplyCaddy(DenyAll, Fine);
      ok := run.ReloadTor(f.tor);
      if !ok { return; }
      ok := run.RestartAuthelia(f.auth);
      ok := ok && IdAt(run.disk.dirs, Active) == Some(s.serviceId);
    }

    /** The owner is reset offline, before the next startup. */
    method StageOwnerReset(open: Outcome, fate: Outcome) returns (r: Reply)
      requires Survives()
      modifies store, store.file
      ensures Survives() && (old(CanStart()) ==> CanStart())
      ensures r.NotAllowed? <==> open.Written? && !Reopened(old(store.file.target)).value.initialized
      ensures r.NotAllowed? ==> store.file.target == old(store.file.target)
      ensures r.Committed? <==>
                open.Written? && !r.NotAllowed? && fate.Written?
      ensures r.Committed? ==> store.memory == Ownerless(Reopened(old(store.file.target)).value)
      ensures r.Committed? ==> WithoutOwner(Reopened(old(store.file.target)).value, store.memory)
      ensures r.Committed? ==> Settled(store.memory, store.file.target)
    {
      var loaded := store.Open(open);
      if !loaded.Written? { return Refused; }
      if !store.memory.initialized { return NotAllowed; }
      OwnerlessTidy(store.memory, run.disk.dirs);
      hide Valid, Tidy, AuthFiles.Expected;
      var v, undo := Commit(Ownerless(store.memory), false, fate);
      r := ReplyOf(v);
    }

    // ----- Whole runs -----

    /** One command in one phase. The plane stays up if the command's compensations work; it comes
        up if the steps of its startup do, and whatever happens can be followed by a startup. */
    method Step(phase: Phase, c: Command) returns (next: Phase, lost: bool)
      requires Survives() && Wired()
      requires phase.Up? ==> Agree()
      modifies this, run, run.disk, store, store.file
      ensures next.Up? ==> Agree()
      ensures Follows(phase, c, next, old(CanStart()))
      ensures identity == old(identity) || (c.Rotate? && identity == c.generated)
      ensures lost ==> c.Rotate? && c.rotate.commit.Late?
      ensures !lost ==> Survives()
      ensures !lost && (phase.Up? || old(CanStart())) ==> CanStart()
    {
      hide AuthFiles.FilesOf, AuthFiles.ClientFiles, AuthFiles.AllReplaceable, Valid, Config, Recoverable, Ready, StartWorks;
      next, lost := phase, false;
      if c.Halt? {
        if phase.Up? { InStepRestarts(); }
        return Down, false;
      }
      if phase.Down? {
        if c.Start? {
          var up := Startup(c.now, c.start);
          if up { next := Up; }
        } else if c.ResetOwner? {
          var r := StageOwnerReset(c.open, c.write);
        }
      } else if phase.Up? {
        next, lost := Operate(c);
      }
    }

    /** One command while everything is in step. */
    method Operate(c: Command) returns (next: Phase, lost: bool)
      requires Agree()
      modifies this, run, run.disk, store, store.file
      ensures next.Up? ==> Agree()
      ensures Smooth(c) ==> next.Up?
      ensures identity == old(identity) || (c.Rotate? && identity == c.generated)
      ensures lost ==> c.Rotate? && c.rotate.commit.Late?
      ensures !lost ==> Restartable()
    {
      hide AuthFiles.FilesOf, AuthFiles.ClientFiles, Valid, Durable, Ready;
      lost := false;
      if c.Rotate? {
        next, lost := OperateRotation(c);
      } else if c.Reconcile? {
        var before := store.memory;
        var r := ReconcileTor(c.now, c.reconcile);
        if r.Committed? { ConfigFrame(renderer, before, store.memory); }
        next := After(r, ReconcileKept(c.reconcile) && !Strays(before, c.now, c.reconcile));
      } else {
        next := OperateOnDevices(c);
      }
    }

    method OperateRotation(c: Command) returns (next: Phase, lost: bool)
      requires Agree() && c.Rotate?
      modifies this, run, run.disk, store, store.file
      ensures next.Up? ==> Agree()
      ensures Smooth(c) ==> next.Up?
      ensures identity == old(identity) || identity == c.generated
      ensures lost ==> c.rotate.commit.Late?
      ensures !lost ==> Restartable()
    {
      hide AuthFiles.FilesOf, AuthFiles.ClientFiles, Config, Valid, Durable, Ready, Stageable, Belong;
      InStepRestarts();
      if IdOf(c.generated) == Some(store.memory.serviceId) { return Up, false; }
      var f := c.rotate;
      lost := Loses(c.stage, c.generated, c.secrets, f);
      var r, cs := RotateIdentity(true, c.stage, c.generated, c.secrets, f);
      next := After(r, Undoes(f.rotation.back) && !Rotation.Strands(f.rotation.forward) && !f.commit.Late?);
    }

    method OperateOnDevices(c: Command) returns (next: Phase)
      requires Agree()
      modifies run, run.disk, store, store.file
      ensures next.Up? ==> Agree()
      ensures Smooth(c) ==> next.Up?
      ensures Restartable()
    {
      hide AuthFiles.FilesOf, AuthFiles.ClientFiles, Config, Valid, Durable, Ready;
      InStepRestarts();
      var r, kept := Committed, true;
      match c {
        case Publication(enabled, f) =>
          kept := PublishKept(f) && !TorrcStrays(store.memory, enabled, f);
          r := SetPublication(enabled, f);
        case NewDevice(name, id, secret, now, f) =>
          var credential;
          r, credential := CreateDevice(name, id, secret, now, f);
          kept := ClientKept(f);
        case Revoke(id, f) =>
          r := RevokeDevice(id, f);
          kept := ClientKept(f);
        case Expire(now, f) =>
          r := ExpirePending(now, f);
          kept := ClientKept(f);
        case _ =>
          r, kept := OperateOnWeb(c);
      }
      next := After(r, kept);
    }

    method OperateOnWeb(c: Command) returns (r: Reply, kept: bool)
      requires Agree()
      modifies run, store, store.file
      ensures r.Committed? || r.NotAllowed? || (r.Refused? && kept) ==> Agree()
      ensures Smooth(c) ==> kept && !r.Crashed?
      ensures Restartable()
    {
      hide AuthFiles.FilesOf, AuthFiles.ClientFiles, Config, Valid, Durable, Ready;
      InStepRestarts();
      r, kept := Committed, true;
      match c {
        case Acknowledge(id, now, fate) =>
          r := AcknowledgeDevice(id, now, fate);
          kept := !fate.Late?;
        case Edit(change, f) =>
          r := ComponentChange(change, f);
          kept := WebKept(f);
        case Plain(next, fate) =>
          if SameOutside(store.memory, next) {
            r := PlainChange(next, fate);
            kept := !fate.Late?;
          }
        case TorRestart(fate) => TorRestarts(fate);
        case CaddyRestart(fate) =>
          kept := CaddyRestarts(fate);
          if !kept { r := Refused; }
        case _ =>
      }
    }

    /** Any run of commands, crashes and startups, with the phases it goes through. While the plane
        is up everything agrees. It stays up as long as compensations work, and after whatever has
        happened a startup whose steps work brings it up again. Unless a rotation's state write has
        failed late, the durable identity can be recovered, with exactly the files it started with
        or those Tor generated for a rotation. */
    method Live(phase: Phase, commands: seq<Command>) returns (phases: seq<Phase>, lost: bool)
      requires Survives() && Wired()
      requires phase.Up? ==> Agree()
      modifies this, run, run.disk, store, store.file
      ensures 1 <= |phases| <= |commands| + 1 && phases[0] == phase
      ensures !lost ==> |phases| == |commands| + 1
      ensures phases[|phases| - 1].Up? ==> Agree()
      ensures phase.Up? || old(CanStart()) ==> FollowAll(phases, commands)
      ensures identity == old(identity) ||
              exists i :: 0 <= i < |commands| && commands[i].Rotate? && identity == commands[i].generated
      ensures lost ==> exists i :: 0 <= i < |commands| && commands[i].Rotate? && commands[i].rotate.commit.Late?
      ensures !lost ==> Survives()
    {
      hide AuthFiles.FilesOf, AuthFiles.ClientFiles, Valid, Config, Recoverable, Ready, Follows;
      ghost var ready := phase.Up? || CanStart();
      phases, lost := [phase], false;
      var last := phase;
      if phase.Up? { InStepRestarts(); }
      for i := 0 to |commands|
        invariant !lost && Survives() && (ready ==> CanStart())
        invariant |phases| == i + 1 && phases[0] == phase && phases[i] == last
        invariant last.Up? ==> Agree()
        invariant ready ==> FollowAll(phases, commands)
        invariant identity == old(identity) ||
                  exists j :: 0 <= j < i && commands[j].Rotate? && identity == commands[j].generated
      {
        ghost var before := phases;
        last, lost := Step(last, commands[i]);
        phases := phases + [last];
        if ready { FollowOne(before, commands, last); }
        if lost { return; }
      }
    }
  }

  /** How a command leads from one phase to the next. `ready`: the disk is fit for a startup. */
  predicate Follows(phase: Phase, c: Command, next: Phase, ready: bool) {
    && (phase.Up? && Smooth(c) ==> next.Up?)
    && (phase.Down? && c.Start? && StartWorks(c.start) && ready ==> next.Up?)
    && (c.Halt? ==> next.Down?)
    && (phase.Down? && !c.Start? ==> next.Down?)
    && (phase.Degraded? && !c.Halt? ==> next.Degraded?)
  }

  ghost predicate FollowAll(phases: seq<Phase>, commands: seq<Command>) {
    && |phases| <= |commands| + 1
    && forall i | 0 <= i < |phases| - 1 :: Follows(phases[i], commands[i], phases[i + 1], true)
  }

  lemma FollowOne(phases: seq<Phase>, commands: seq<Command>, last: Phase)
    requires phases != [] && |phases| <= |commands| && FollowAll(phases, commands)
    requires Follows(phases[|phases| - 1], commands[|phases| - 1], last, true)
    ensures FollowAll(phases + [last], commands)
  {
  }

  /** After a startup whose steps work, and commands whose compensations work, the plane is up. */
  lemma {:induction false} ComesBackUp(phases: seq<Phase>, commands: seq<Command>, k: nat)
    requires FollowAll(phases, commands) && k < |phases| - 1
    requires phases[k].Down? && commands[k].Start? && StartWorks(commands[k].start)
    requires forall j | k < j < |phases| - 1 :: Smooth(commands[j])
    ensures phases[|phases| - 1].Up?
    decreases |phases|
  {
    hide StartWorks, Smooth;
    assert Follows(phases[k], commands[k], phases[k + 1], true);
    if k + 1 < |phases| - 1 {
      var front := phases[..|phases| - 1];
      ComesBackUp(front, commands, k);
      assert Follows(front[|front| - 1], commands[|front| - 1], phases[|phases| - 1], true);
    }
  }

  /** The write of torrc took effect, reported an error and made a difference. */
  predicate TorrcStrays(s: State, enabled: bool, f: PublishFate) {
    f.write.Misreported? && enabled != s.publication
  }

  /** The failed reload took effect, and without the pending device that had expired. */
  predicate Strays(s: State, now: Time, f: ReconcileFate) {
    f.files && f.reload.Misreported? && Unexpired(s, now) != s
  }

  function After(r: Reply, kept: bool): Phase {
    if r.Committed? || r.NotAllowed? || (r.Refused? && kept) then Up else if r.Crashed? then Down else Degraded
  }

  /** Up: in step. Degraded: a compensation failed; only a restart is considered. */
  datatype Phase = Up | Degraded | Down

  datatype Command =
    | Start(now: Time, start: StartFate)
    | Halt
    | ResetOwner(open: Outcome, write: Outcome)
    | Publication(enabled: bool, publish: PublishFate)
    | NewDevice(name: string, id: string, secret: string, now: Time, client: ClientFate)
    | Acknowledge(id: string, now: Time, write: Outcome)
    | Revoke(id: string, client: ClientFate)
    | Expire(now: Time, client: ClientFate)
    | Reconcile(now: Time, reconcile: ReconcileFate)
    | Edit(change: Change, web: WebFate)
    | Plain(next: State, write: Outcome)
    | Rotate(stage: nat, generated: Files, secrets: seq<string>, rotate: RotateFate)
    | TorRestart(reload: Fate)
    | CaddyRestart(caddy: Fate)

  /** No crash, no compensating step that fails, no error after a rename. */
  predicate Smooth(c: Command) {
    match c
    case Start(_, _) => true
    case Halt => false
    case ResetOwner(_, _) => true
    case Publication(_, f) => PublishKept(f) && !f.write.Misreported? && !f.commit.Crashed?
    case NewDevice(_, _, _, _, f) => ClientKept(f) && !f.commit.Crashed?
    case Acknowledge(_, _, fate) => !fate.Late? && !fate.Crashed?
    case Revoke(_, f) => ClientKept(f) && !f.commit.Crashed?
    case Expire(_, f) => ClientKept(f) && !f.commit.Crashed?
    case Reconcile(_, f) => ReconcileKept(f) && !f.reload.Misreported? && !f.commit.Crashed?
    case Edit(_, f) => WebKept(f) && !f.commit.Crashed?
    case Plain(_, fate) => !fate.Late? && !fate.Crashed?
    case Rotate(_, _, _, f) =>
      && Undoes(f.rotation.back) && !Rotation.Strands(f.rotation.forward) && !RotationCrashes(f.rotation)
      && !f.commit.Late? && !f.commit.Crashed? && !f.finish.Crash?
    case TorRestart(_) => true
    case CaddyRestart(fate) => fate.Fine?
  }

  /** The state of an owner reset. */
  function Ownerless(s: State): State {
    s.(initialized := false, publication := false, sessions := [], tokens := [], pending := None, bootstrap := None)
  }

  /** No session, token, bootstrap window or pending device is left, nothing is published, and
      identity, mappings and devices stay. */
  predicate WithoutOwner(s: State, t: State) {
    && !t.initialized && !t.publication && t.sessions == [] && t.tokens == [] && t.pending.None? && t.bootstrap.None?
    && t.version == s.version && t.serviceId == s.serviceId && t.mappings == s.mappings && t.devices == s.devices
  }

  /** Every client of a valid state can have a file in an empty directory. */
  lemma NewRecords(s: State)
    requires Valid(s)
    ensures AuthFiles.AllReplaceable(map[], Authorized(s))
  {
    forall id | id in Authorized(s) ensures AuthFiles.Replaceable(map[], id, Authorized(s)[id]) {
      AuthorizedRecords(s, id);
    }
  }

  lemma NewHomeReplaceable(candidate: State)
    requires Valid(candidate)
    ensures AuthFiles.AllReplaceable(AuthFiles.FilesOf(Authorized(candidate)), Authorized(candidate))
  {
    forall id | id in Authorized(candidate)
      ensures AuthFiles.Replaceable(AuthFiles.FilesOf(Authorized(candidate)), id, Authorized(candidate)[id])
    {
      AuthorizedRecords(candidate, id);
      AuthFiles.FileOf(Authorized(candidate), id);
    }
  }

  /** A rotation that has not changed the state file can be followed by a restart. */
  lemma RotationRestarts(file: Option<Contents<State>>, dirs: Dirs, current: State, home: Dir)
    requires Settled(current, file) && Running(current)
    requires Settles(dirs, current.serviceId) == Some(home) && home.auth.Some?
    requires AuthFiles.AllReplaceable(home.auth.value, Authorized(current))
    ensures Durable(file, dirs, home.files) && Ready(file, dirs)
  {
    RecoverableIsSettled(dirs, current.serviceId, home.files);
  }

  lemma OwnerlessTidy(s: State, dirs: Dirs)
    requires Valid(s)
    ensures Tidy(dirs, s.serviceId, Authorized(s)) ==> Tidy(dirs, s.serviceId, Authorized(Ownerless(s)))
  {
    if s.pending.Some? { PendingClient(s); }
  }

  lemma ClientsOfNewHome(generated: Files, devices: seq<Device>)
    ensures ClientsOf(NewHome(generated, devices)) == Some(AuthFiles.FilesOf(AuthFiles.Expected(devices, None)))
  {
    var files := AuthFiles.FilesOf(AuthFiles.Expected(devices, None));
    assert AuthFiles.ClientFiles(files) == files;
  }

  /** Dropping the pending device takes one client away. */
  lemma PendingClient(s: State)
    requires Valid(s) && s.pending.Some?
    ensures var d := s.pending.value.device;
            && d.id in Authorized(s) && Authorized(s)[d.id] == d.publicKey
            && Authorized(s.(pending := None)) == Authorized(s) - {d.id}
  {
    NotADevice(s.devices, s.pending.value.device.id);
  }

  lemma StillValid(s: State, now: Time)
    requires Valid(s)
    ensures Valid(s.(sessions := [])) && Valid(Unexpired(s, now))
  {
  }

  /** With and without an expired pending device the client files differ. */
  lemma FilesTellApart(s: State, now: Time)
    requires Valid(s)
    ensures AuthFiles.FilesOf(Authorized(Unexpired(s, now))) == AuthFiles.FilesOf(Authorized(s)) <==> Unexpired(s, now) == s
  {
    UnexpiredClients(s, now);
    if AuthFiles.FilesOf(Authorized(Unexpired(s, now))) == AuthFiles.FilesOf(Authorized(s)) {
      AuthFiles.FilesOfInjective(Authorized(Unexpired(s, now)), Authorized(s));
    }
  }

  /** A change leads to one state only. */
  lemma ChangedOnce(s: State, c: Change, t: State)
    requires Changed(s, c, t) && Mappings.InOrder(t.mappings)
    ensures forall u | Changed(s, c, u) && Mappings.InOrder(u.mappings) :: u == t
  {
    forall u | Changed(s, c, u) && Mappings.InOrder(u.mappings) ensures u == t {
      Mappings.TableDetermines(u.mappings, t.mappings);
    }
  }

  datatype Change =
    | Setup(session: LocalSession)
    | Create(mapping: Mapping)
    | Update(prefix: string, mapping: Mapping)
    | Enable(prefix: string, enabled: bool)
    | Delete(prefix: string)

  /** What a change asks of the table of mappings, or of the setup. */
  ghost predicate CanChange(s: State, c: Change) {
    var table := Mappings.Table(s.mappings);
    match c
    case Setup(_) => !s.initialized && s.sessions == []
    case Create(m) => s.initialized && m.prefix !in table
    case Update(p, m) => s.initialized && p in table && (m.prefix == p || m.prefix !in table)
    case Enable(p, _) => s.initialized && p in table
    case Delete(p) => s.initialized && p in table
  }

  /** What a change does to the table of mappings. */
  ghost predicate TableChanged(table: map<string, Mapping>, c: Change, after: map<string, Mapping>) {
    match c
    case Setup(_) => after == table
    case Create(m) => after == table[m.prefix := m]
    case Update(p, m) => after == (table - {p})[m.prefix := m]
    case Enable(p, b) => p in table && after == table[p := table[p].(enabled := b)]
    case Delete(p) => after == table - {p}
  }

  /** What a change does to a state, and that it does no more. */
  ghost predicate Changed(s: State, c: Change, t: State) {
    && t == s.(mappings := t.mappings, initialized := t.initialized, sessions := t.sessions)
    && t.initialized
    && (if c.Setup? then t.mappings == s.mappings && t.sessions == s.sessions + [c.session]
        else s.initialized && t.sessions == s.sessions)
    && TableChanged(Mappings.Table(s.mappings), c, Mappings.Table(t.mappings))
  }

  /** The mutation of the candidate state. */
  method Mutate(s: State, c: Change) returns (ok: bool, t: State)
    requires Valid(s) && Mappings.InOrder(s.mappings)
    requires s.initialized || s.sessions == []
    ensures ok && t.initialized <==> CanChange(s, c)
    ensures ok && t.initialized ==> Changed(s, c, t) && Mappings.InOrder(t.mappings)
  {
    t := s;
    var ms := s.mappings;
    match c {
      case Setup(session) =>
        if s.initialized { return false, t; }
        return true, s.(initialized := true, sessions := s.sessions + [session]);
      case Create(m) =>
        ok, ms := Mappings.CreateMapping(s.mappings, m);
      case Update(p, m) =>
        ok, ms := Mappings.UpdateMapping(s.mappings, p, m);
      case Enable(p, b) =>
        ok, ms := Mappings.EnableMapping(s.mappings, p, b);
      case Delete(p) =>
        ok, ms := DeleteCopy(s.mappings, p);
    }
    t := s.(mappings := ms);
  }

  /** Deletion compacts the candidate's own copy of the list in place. */
  method DeleteCopy(ms: seq<Mapping>, prefix: string) returns (ok: bool, ms': seq<Mapping>)
    requires Mappings.Distinct(ms)
    ensures ok <==> prefix in Mappings.Table(ms)
    ensures Mappings.Table(ms') == Mappings.Table(ms) - {prefix}
    ensures Mappings.InOrder(ms) ==> Mappings.InOrder(ms')
  {
    var a := new Mapping[|ms|](i requires 0 <= i < |ms| => ms[i]);
    assert a[..] == ms;
    var kept;
    ok, kept := Mappings.DeleteMapping(a, prefix);
    ms' := a[..kept];
  }

  predicate SameOutside(a: State, b: State) {
    SameWeb(a, b) && a.devices == b.devices && a.pending == b.pending && a.publication == b.publication
  }

  /** Only an expired pending device makes a difference to the clients. */
  lemma UnexpiredClients(s: State, now: Time)
    requires Valid(s)
    ensures Authorized(Unexpired(s, now)) == Authorized(s) <==> Unexpired(s, now) == s
    ensures forall id | id in Authorized(Unexpired(s, now)) ::
              id in Authorized(s) && Authorized(Unexpired(s, now))[id] == Authorized(s)[id]
  {
    if s.pending.Some? { NotADevice(s.devices, s.pending.value.device.id); }
  }

  lemma WithoutPending(s: State)
    requires Valid(s) && s.pending.Some?
    ensures forall id, key ::
              IsClient(s.(pending := None), id, key) <==> IsClient(s, id, key) && id != s.pending.value.device.id
  {
  }

  /** Rendering does not tell the states apart. */
  predicate SameWeb(a: State, b: State) {
    a.serviceId == b.serviceId && a.initialized == b.initialized && a.mappings == b.mappings
  }

  /** The guards of device creation. */
  predicate CanCreate(s: State, p: PendingDevice) {
    s.initialized && s.pending.None? && |s.devices| < MAX_DEVICES && Valid(s.(pending := Some(p)))
  }

  function Revoked(s: State, id: string): State {
    s.(devices := WithoutDevice(s.devices, id))
  }

  /** Device i, which has this identifier, is gone; nothing else changes. */
  predicate TakenOut(s: State, i: nat, id: string, t: State) {
    i < |s.devices| && s.devices[i].id == id && t == s.(devices := s.devices[..i] + s.devices[i + 1..])
  }

  lemma {:induction false} NothingToRemove(ds: seq<Device>, id: string)
    requires forall i | 0 <= i < |ds| :: ds[i].id != id
    ensures WithoutDevice(ds, id) == ds
  {
    if ds != [] { NothingToRemove(ds[..|ds| - 1], id); }
  }

  lemma {:induction false} RemovedOnce(ds: seq<Device>, i: nat)
    requires i < |ds| && forall j, k | 0 <= j < k < |ds| :: ds[j].id != ds[k].id
    ensures WithoutDevice(ds, ds[i].id) == ds[..i] + ds[i + 1..]
  {
    var front := ds[..|ds| - 1];
    if i < |ds| - 1 {
      RemovedOnce(front, i);
      assert ds[..i] + ds[i + 1..] == front[..i] + front[i + 1..] + [ds[|ds| - 1]];
    } else {
      NothingToRemove(front, ds[i].id);
    }
  }

  lemma RevokedOnce(s: State, id: string) returns (i: nat)
    requires Valid(s) && id in AuthFiles.DeviceKeys(s.devices)
    ensures TakenOut(s, i, id, Revoked(s, id))
  {
    i := DeviceOfKey(s.devices, id);
    RemovedOnce(s.devices, i);
  }

  lemma TakenOutClient(s: State, i: nat, t: State, id: string, other: string, key: string)
    requires TakenOut(s, i, id, t) && forall j | 0 <= j < |s.devices| && j != i :: s.devices[j].id != id
    requires s.pending.Some? ==> s.pending.value.device.id != id
    ensures IsClient(t, other, key) <==> IsClient(s, other, key) && other != id
  {
    var ds, less := s.devices, t.devices;
    if j :| 0 <= j < |less| && less[j].id == other && less[j].publicKey == key {
      assert less[j] == ds[if j < i then j else j + 1];
    }
    if j :| 0 <= j < |ds| && j != i && ds[j].id == other && ds[j].publicKey == key {
      assert less[if j < i then j else j - 1] == ds[j];
    }
  }

  lemma RevokedClients(s: State, id: string)
    requires Valid(s) && id in AuthFiles.DeviceKeys(s.devices)
    ensures forall other, key :: IsClient(Revoked(s, id), other, key) <==> IsClient(s, other, key) && other != id
  {
    var i := RevokedOnce(s, id);
    hide WithoutDevice, AuthFiles.DeviceKeys, Revoked, IsClient;
    forall other, key ensures IsClient(Revoked(s, id), other, key) <==> IsClient(s, other, key) && other != id {
      TakenOutClient(s, i, Revoked(s, id), id, other, key);
    }
  }

  predicate CanRotate(s: State) {
    s.initialized && s.pending.None? && s.devices != []
  }

  /** The credential is for the identity Tor runs as and ends in this secret, and Tor lets its
      device in under this key. */
  predicate Opens(tor: Loaded, c: Credential, secret: string, key: string) {
    && tor.id.Some? && c.value == tor.id.value + ":descriptor:x25519:" + secret
    && Admits(tor, c.deviceId, key)
  }

  /** Every device has a credential, and its own one opens the way for it and its key. */
  predicate OpenForAll(s: State, tor: Loaded, cs: seq<Credential>, secrets: seq<string>, publicOf: string -> string) {
    && |cs| == |s.devices| <= |secrets|
    && forall i | 0 <= i < |cs| ::
         && cs[i].deviceId == s.devices[i].id && cs[i].name == s.devices[i].name
         && Opens(tor, cs[i], secrets[i], publicOf(secrets[i]))
  }

  lemma CredentialsOpen(before: State, s: State, tor: Loaded, cs: seq<Credential>, secrets: seq<string>, publicOf: string -> string)
    requires RekeysEach(before, s, secrets, publicOf) && Belong(cs, s.devices, s.serviceId, secrets)
    requires tor.id == Some(s.serviceId) && forall id, key :: Admits(tor, id, key) <==> IsClient(s, id, key)
    ensures OpenForAll(s, tor, cs, secrets, publicOf)
  {
    hide Admits;
    forall i | 0 <= i < |cs| ensures Opens(tor, cs[i], secrets[i], publicOf(secrets[i])) {
      assert IsClient(s, s.devices[i].id, publicOf(secrets[i]));
    }
  }

  predicate CanAcknowledge(s: State, id: string, now: Time) {
    s.pending.Some? && s.pending.value.device.id == id && s.pending.value.expiresAt > now
  }

  function Acknowledged(s: State, now: Time): State
    requires s.pending.Some?
  {
    s.(devices := s.devices + [s.pending.value.device.(acknowledgedAt := now)], pending := None)
  }

  /** Acknowledging keeps a state valid exactly if there is room and the clock is set. */
  lemma AcknowledgedValid(s: State, now: Time)
    requires Valid(s) && s.pending.Some?
    ensures Valid(Acknowledged(s, now)) <==> |s.devices| < MAX_DEVICES && now != 0
  {
    var ds := s.devices;
    var d := s.pending.value.device.(acknowledgedAt := now);
    assert (ds + [d])[|ds|] == d && forall i | 0 <= i < |ds| :: (ds + [d])[i] == ds[i];
  }

  /** A pending device whose time is over is dropped. */
  function Unexpired(s: State, now: Time): State {
    if s.pending.Some? && s.pending.value.expiresAt <= now then s.(pending := None) else s
  }

  lemma LessThenMore(clients: Clients, id: string, other: string, key: string)
    requires id != other
    ensures (clients - {id})[other := key] == clients[other := key] - {id}
  {
  }

  lemma DeviceClient(ds: seq<Device>, pending: Option<PendingDevice>, i: nat)
    requires i < |ds| && forall j, k | 0 <= j < k < |ds| :: ds[j].id != ds[k].id
    requires pending.Some? ==> pending.value.device.id != ds[i].id
    ensures ds[i].id in AuthFiles.DeviceKeys(ds)
    ensures ds[i].id in AuthFiles.Expected(ds, pending) && AuthFiles.Expected(ds, pending)[ds[i].id] == ds[i].publicKey
    ensures AuthFiles.Expected(WithoutDevice(ds, ds[i].id), pending) == AuthFiles.Expected(ds, pending) - {ds[i].id}
  {
    KeyOfDevice(ds, i);
    RevokedKeys(ds, ds[i].id);
    hide AuthFiles.DeviceKeys, WithoutDevice;
    if pending.Some? {
      LessThenMore(AuthFiles.DeviceKeys(ds), ds[i].id, pending.value.device.id, pending.value.device.publicKey);
    }
  }

  /** In a valid state a device is authorized under its own key, pending or not. */
  lemma NotPending(s: State, d: Device)
    requires Valid(s) && d in s.devices
    ensures d.id in AuthFiles.DeviceKeys(s.devices)
    ensures d.id in Authorized(s) && Authorized(s)[d.id] == d.publicKey
    ensures AuthFiles.Expected(WithoutDevice(s.devices, d.id), s.pending) == Authorized(s) - {d.id}
  {
    hide AuthFiles.DeviceKeys, WithoutDevice, AuthFiles.Expected;
    var i :| 0 <= i < |s.devices| && s.devices[i] == d;
    DeviceClient(s.devices, s.pending, i);
  }

  lemma LastPublished(s: State, id: string)
    requires s.publication && WithoutDevice(s.devices, id) == []
    ensures !Valid(Revoked(s, id))
  {
  }

  const PENDING_TTL: Time := 15 * 60 * 1_000_000_000

  function NewPending(name: string, id: string, secret: string, key: string, now: Time): PendingDevice {
    PendingDevice(Device(id, name, key, now, 0), secret, now + PENDING_TTL)
  }

  function ReplyOf(v: Outcome): Reply {
    match v
    case Written => Committed
    case Crashed => Reply.Crashed
    case _ => Refused
  }
}
