/** Runs that show the exceptions of the control plane can happen: every compensating step
    works, and yet the components are not back in step. */
module Failures {
  import opened Options
  import opened Model
  import opened Identity
  import opened Routing
  import opened Components
  import opened StateStore
  import opened Rotation
  import opened Control
  import AuthFiles

  function Repeat(c: char, n: nat): (r: string)
    ensures |r| == n && forall i | 0 <= i < n :: r[i] == c
  {
    if n == 0 then "" else Repeat(c, n - 1) + [c]
  }

  const OLD_ID: string := Repeat('a', 56)
  const NEW_ID: string := Repeat('b', 56)
  const KEY: string := Repeat('k', 52)
  const PHONE := Device(Repeat('0', 32), "phone", KEY, 1, 1)
  const TABLET := PendingDevice(Device(Repeat('1', 32), "tablet", KEY, 1, 0), KEY, 2)
  const RENDERER := Renderer([], "localhost", [], "")

  /** The hostname file as Tor writes it. */
  function Hostname(id: string): Files {
    map["hostname" := id + ".onion" + "\n"]
  }

  lemma HostnameNamesId(id: string)
    requires ValidServiceId(id)
    ensures IdOf(Hostname(id)) == Some(id)
  {
    var text := id + ".onion" + "\n";
    assert AllSpace("") && AllSpace("\n") && text == "" + (id + ".onion") + "\n";
    HostnameIff(text, id);
  }

  /** One device, and another one pending if asked for. */
  function Sample(pending: Option<PendingDevice>): State {
    State(STATE_VERSION, true, OLD_ID, false, [], [PHONE], pending, [], [], None)
  }

  lemma SampleIsValid(pending: Option<PendingDevice>)
    requires pending.None? || pending == Some(TABLET)
    ensures Valid(Sample(pending)) && Running(Sample(pending)) && SafeRenderer(RENDERER)
  {
    hide Repeat;
    assert ValidDevice(PHONE) && ValidPending(TABLET);
    assert PHONE.id[0] != TABLET.device.id[0];
    hide ValidDevice, ValidPending;
    assert DevicesValid([PHONE], pending);
  }

  lemma FilesAreClients(clients: Clients)
    ensures AuthFiles.ClientFiles(AuthFiles.FilesOf(clients)) == AuthFiles.FilesOf(clients)
  {
  }

  /** A control plane that is up and in step. */
  method Plane(pending: Option<PendingDevice>) returns (m: Manager)
    requires pending.None? || pending == Some(TABLET)
    ensures fresh(m) && fresh(m.store) && fresh(m.store.file) && fresh(m.run) && fresh(m.run.disk)
    ensures m.Agree() && m.store.memory == Sample(pending) && m.renderer == RENDERER
    ensures m.run.disk.dirs.Keys == {Active} && m.rotator.publicOf(KEY) == KEY
  {
    hide Valid, Config, SafeRenderer, Running, AuthFiles.FilesOf, Repeat;
    var s := Sample(pending);
    FilesAreClients(Authorized(s));
    SampleIsValid(pending);
    HostnameNamesId(OLD_ID);
    var files := AuthFiles.FilesOf(Authorized(s));
    var dirs: Dirs := map[Active := Dir(Hostname(OLD_ID), Some(files))];
    var file := new File<State>(Some(Whole(s)));
    var store := new Store(file, s);
    var disk := new Disk(dirs);
    var run := new Runtime(disk, false, OnDisk(dirs, false), Authelia(OLD_ID, OLD_ID, OLD_ID), Config(RENDERER, s));
    var rotator := new Rotator(run, RENDERER, _ => KEY);
    m := new Manager(store, run, rotator, RENDERER, Hostname(OLD_ID));
  }

  const WORKS := Activation(Done, Done, Done, Done, Done)
  const FORWARD := Forwarding(Fine, Fine, true, WORKS, Fine, Fine, Fine)
  const BACK := Undoing(Done, RESTORES, Fine, Fine, Fine, Fine)

  lemma NewSampleIsValid()
    ensures Valid(Sample(None).(serviceId := NEW_ID)) && SafeRenderer(RENDERER) && ValidId(PHONE.id) && ValidKey(KEY)
  {
    SampleIsValid(None);
  }

  /** The sample keeps its key in a rotation. */
  lemma SampleCandidate(publicOf: string -> string)
    requires publicOf(KEY) == KEY
    ensures Rekeyed([PHONE], [KEY], publicOf) == [PHONE]
    ensures AuthFiles.Expected([PHONE], None) == map[PHONE.id := KEY]
  {
    hide Repeat;
    var ds := [PHONE];
    assert ds[..|ds| - 1] == [];
    assert AuthFiles.DeviceKeys(ds) == map[PHONE.id := KEY];
    assert Rekeyed([PHONE], [KEY], publicOf)[0] == PHONE;
  }

  lemma SampleRotates(r: Rotator, dirs: Dirs, f: RotationFate)
    requires r.renderer == RENDERER && r.publicOf(KEY) == KEY && dirs.Keys == {Active} && f.stage.Done?
    ensures r.Rotates(dirs, 0, Sample(None).(sessions := []), Hostname(NEW_ID), [KEY], f)
    ensures IdOf(Hostname(NEW_ID)) == Some(NEW_ID) && NEW_ID != OLD_ID
  {
    hide Repeat;
    HostnameNamesId(NEW_ID);
    NewSampleIsValid();
    assert NEW_ID[0] != OLD_ID[0];
    SampleCandidate(r.publicOf);
    hide Valid, HostnameId, Hostname, ValidKey, ValidId, Rekeyed, AuthFiles.Expected, AuthFiles.DeviceKeys, SafeRenderer;
    assert Candidate(Sample(None).(sessions := []), Hostname(NEW_ID), [KEY], r.publicOf) == Sample(None).(serviceId := NEW_ID);
  }

  /** The rotation fails, every step of its rollback works, and the active directory is missing. */
  method StrandedRotation() returns (m: Manager, r: Reply, f: RotateFate)
    ensures r.Refused? && Undoes(f.rotation.back) && !f.commit.Late? && Active !in m.run.disk.dirs && !m.Agree()
    ensures fresh(m) && fresh(m.store) && fresh(m.store.file) && fresh(m.run) && fresh(m.run.disk)
    ensures m.Restartable() && m.Wired() && SafeRenderer(m.renderer)
  {
    hide Valid, Config, AuthFiles.FilesOf, AuthFiles.ClientFiles, Stageable, Recoverable, Repeat;
    m := Plane(None);
    f := RotateFate(RotationFate(Done, Done, FORWARD.(activate := Activation(Done, Done, Error, Error, Done)), BACK), Written, Done);
    SampleRotates(m.rotator, m.run.disk.dirs, f.rotation);
    var cs;
    r, cs := m.RotateIdentity(true, 0, Hostname(NEW_ID), [KEY], f);
  }

  /** The state write reports an error after its rename; the rollback works and the identity the
      state file now names is gone. */
  method LostIdentity() returns (m: Manager, r: Reply, f: RotateFate)
    ensures r.Refused? && Undoes(f.rotation.back)
    ensures forall files :: !Durable(m.store.file.target, m.run.disk.dirs, files)
  {
    hide Valid, Config, AuthFiles.FilesOf, AuthFiles.ClientFiles, Stageable, Recoverable, Repeat;
    m := Plane(None);
    f := RotateFate(RotationFate(Done, Done, FORWARD, BACK), Late, Done);
    SampleRotates(m.rotator, m.run.disk.dirs, f.rotation);
    var cs;
    r, cs := m.RotateIdentity(true, 0, Hostname(NEW_ID), [KEY], f);
  }

  /** A reload that took effect reports an error; the files are put back and Tor is out of step. */
  method StrayReload() returns (m: Manager, r: Reply, f: ReconcileFate)
    ensures r.Refused? && ReconcileKept(f) && !m.TorSide()
  {
    m := Plane(Some(TABLET));
    f := ReconcileFate(true, Misreported, true, true, Fine, Written);
    r := m.ReconcileTor(3, f);
  }


  /** The write of torrc reports an error after its rename, and nothing takes it back. */
  method StrayTorrc() returns (m: Manager, r: Reply, f: PublishFate)
    ensures r.Refused? && PublishKept(f) && !m.Agree()
  {
    m := Plane(None);
    f := PublishFate(Misreported, true, Fine, Fine, Fine, Written);
    PublishedSampleIsValid();
    r := m.SetPublication(true, f);
  }

  lemma PublishedSampleIsValid()
    ensures Valid(Sample(None).(publication := true))
  {
    SampleIsValid(None);
  }

  const STARTS := StartFate(
    Written, Done, Recovery(map[], Done, RESTORES), true, Fine, true, Fine, Fine, Fine,
    ReconcileFate(true, Fine, true, true, Fine, Written), Fine)

  /** The stranded rotation is repaired by a restart. */
  method StrandedComesBack() returns (m: Manager)
    ensures m.Agree()
  {
    var r, f;
    m, r, f := StrandedRotation();
    var up := m.Startup(4, STARTS);
  }
}
