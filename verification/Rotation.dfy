/** Rotation of the onion identity over the components, and its rollback. */
module Rotation {
  import opened Options
  import opened Model
  import opened Identity
  import opened Routing
  import opened Components
  import AuthFiles

  datatype Credential = Credential(deviceId: string, name: string, value: string)

  const DESCRIPTOR := ":descriptor:x25519:"

  function CredentialText(id: string, secret: string): Option<string> {
    if ValidServiceId(id) && ValidKey(secret) then Some(id + DESCRIPTOR + secret) else None
  }

  /** The same devices, each with the public key of its new secret. */
  function Rekeyed(ds: seq<Device>, secrets: seq<string>, publicOf: string -> string): seq<Device>
    requires |ds| <= |secrets|
  {
    seq(|ds|, i requires 0 <= i < |ds| => ds[i].(publicKey := publicOf(secrets[i])))
  }

  /** Nothing but the identity and the keys changes, and each device has the key of its own secret. */
  predicate RekeysEach(before: State, after: State, secrets: seq<string>, publicOf: string -> string) {
    && after == before.(serviceId := after.serviceId, devices := after.devices)
    && |after.devices| == |before.devices| <= |secrets|
    && forall i | 0 <= i < |before.devices| :: after.devices[i] == before.devices[i].(publicKey := publicOf(secrets[i]))
  }

  /** Credential i is device i's: its name, and the secret of its new key under the new identity. */
  predicate Belong(cs: seq<Credential>, ds: seq<Device>, id: string, secrets: seq<string>) {
    && |cs| == |ds| <= |secrets|
    && forall i | 0 <= i < |ds| :: cs[i] == Credential(ds[i].id, ds[i].name, id + DESCRIPTOR + secrets[i])
  }

  // ----- How the steps of a rotation end -----

  datatype Forwarding = Forwarding(
    alias: Fate, config: Fate, accepted: bool, activate: Activation, tor: Fate, authelia: Fate, final: Fate)

  datatype Undoing = Undoing(sweep: Verdict, restore: Restoration, config: Fate, tor: Fate, authelia: Fate, caddy: Fate)

  datatype RotationFate = RotationFate(stage: Verdict, sweep: Verdict, forward: Forwarding, back: Undoing)

  /** The steps before the activation work. */
  predicate Prepares(f: Forwarding) {
    f.alias.Fine? && f.config.Fine? && f.accepted
  }

  predicate Forwards(f: Forwarding) {
    Prepares(f) && Activated(f.activate).Done? && f.tor.Fine? && f.authelia.Fine? && f.final.Fine?
  }

  /** The activation fails halfway and its own undoing fails: the caller gets no backup. */
  predicate Strands(f: Forwarding) {
    Prepares(f) && BothRenamesFail(f.activate)
  }

  /** Every step of the rollback works; an error in sweeping the stage is ignored. */
  predicate Undoes(f: Undoing) {
    !f.sweep.Crash? && f.restore == RESTORES && f.config.Fine? && f.tor.Fine? && f.authelia.Fine? && f.caddy.Fine?
  }

  predicate ActivationCrashes(f: Activation) {
    f.clear.Crash? || f.retire.Crash? || f.install.Crash? || f.undo.Crash? || f.sweep.Crash?
  }

  predicate UndoingCrashes(f: Undoing) {
    f.sweep.Crash? || f.restore.clear.Crash? || f.restore.retire.Crash? || f.restore.install.Crash? ||
    f.restore.undo.Crash? || f.restore.drop.Crash?
  }

  predicate RotationCrashes(f: RotationFate) {
    f.stage.Crash? || f.sweep.Crash? || ActivationCrashes(f.forward.activate) || UndoingCrashes(f.back)
  }

  // ----- States -----

  datatype Progress = Progress(verdict: Verdict, backup: bool, authRestarted: bool)

  function ClientsOf(home: Dir): Option<AuthFiles.Listing> {
    if home.auth.Some? then Some(AuthFiles.ClientFiles(home.auth.value)) else None
  }

  /** The components stand at this identity, clients and configuration. */
  predicate StandsAt(dirs: Dirs, torrc: bool, tor: Loaded, authelia: Authelia, live: Site, home: Dir, id: string, site: Site) {
    && Active in dirs && dirs[Active] == home && IdOf(home.files) == Some(id)
    && tor == Loaded(Some(id), ClientsOf(home), torrc)
    && authelia == Authelia(id, id, id)
    && live == site
  }

  function Rotated(base: State, id: string, devices: seq<Device>): State {
    base.(serviceId := id, devices := devices)
  }

  /** The state a rotation leads to. */
  function Candidate(base: State, generated: Files, secrets: seq<string>, publicOf: string -> string): State
    requires |base.devices| <= |secrets| && IdOf(generated).Some?
  {
    Rotated(base, IdOf(generated).value, Rekeyed(base.devices, secrets, publicOf))
  }

  function NewHome(generated: Files, devices: seq<Device>): Dir {
    Dir(generated, Some(AuthFiles.FilesOf(AuthFiles.Expected(devices, None))))
  }

  /** The new identity can be staged: keys for every device, a free stage, a hostname, and
      records that make valid client files and credentials. */
  predicate Stageable(dirs: Dirs, n: nat, base: State, generated: Files, secrets: seq<string>, publicOf: string -> string) {
    && |base.devices| <= |secrets| && IdOf(generated).Some?
    && StageRoot(n) !in dirs && Staged(n) !in dirs
    && AuthFiles.AllReplaceable(map[], AuthFiles.Expected(Rekeyed(base.devices, secrets, publicOf), None))
    && forall i | 0 <= i < |base.devices| :: ValidKey(secrets[i])
  }

  lemma HostnameIsValid(files: Files)
    requires IdOf(files).Some?
    ensures ValidServiceId(IdOf(files).value)
  {
  }

  /** The alias renderer renders whatever the plain one does. */
  lemma BridgeRenders(r: Renderer, prior: string, candidate: State)
    requires r.aliases == [] && ValidServiceId(prior) && prior != candidate.serviceId
    ensures CanRender(r.(aliases := [prior]), candidate) <==> CanRender(r, candidate)
  {
  }

  /** After the final render the old identity has no answer: a rollback from there, as after
      a failed state write, leaves Tor publishing what Caddy does not cover until it renders again. */
  lemma FinalRenderDropsOldIdentity(r: Renderer, base: State, candidate: State)
    requires r.aliases == [] && CanRender(r, candidate) && candidate.initialized
    requires ValidServiceId(base.serviceId) && base.serviceId != candidate.serviceId
    ensures !Covers(Config(r, candidate), base.serviceId) && !Answers(Config(r, candidate), base.serviceId)
  {
    CoversIff(r, candidate, base.serviceId);
  }

  lemma TwoMoments(before: seq<Moment>, a: Moment, b: Moment)
    ensures CoveredFrom(before + [a] + [b], |before|) <==> Covered(a) && Covered(b)
  {
    var all := before + [a] + [b];
    assert all[|before|] == a && all[|before| + 1] == b;
  }

  class Rotator {
    const run: Runtime
    const renderer: Renderer
    /** The public key of a secret key. */
    const publicOf: string -> string

    constructor (run: Runtime, renderer: Renderer, publicOf: string -> string)
      ensures this.run == run && this.renderer == renderer && this.publicOf == publicOf
    {
      this.run, this.renderer, this.publicOf := run, renderer, publicOf;
    }

    /** New keys for every device, one by one, as long as generating them works. */
    method Rekey(devices: seq<Device>, secrets: seq<string>) returns (ok: bool, after: seq<Device>)
      ensures ok <==> |devices| <= |secrets|
      ensures ok ==> after == Rekeyed(devices, secrets, publicOf)
      ensures ok ==> |after| == |devices|
      ensures ok ==> forall i | 0 <= i < |devices| :: after[i] == devices[i].(publicKey := publicOf(secrets[i]))
    {
      after := devices;
      for i := 0 to |devices|
        invariant i <= |secrets| && |after| == |devices|
        invariant forall j | 0 <= j < i :: after[j] == devices[j].(publicKey := publicOf(secrets[j]))
        invariant forall j | i <= j < |devices| :: after[j] == devices[j]
      {
        if i >= |secrets| { return false, after; }
        after := after[i := after[i].(publicKey := publicOf(secrets[i]))];
      }
      ok := true;
    }

    method Credentials(devices: seq<Device>, id: string, secrets: seq<string>) returns (ok: bool, cs: seq<Credential>)
      requires |devices| <= |secrets| && ValidServiceId(id)
      ensures ok <==> forall i | 0 <= i < |devices| :: ValidKey(secrets[i])
      ensures ok ==> Belong(cs, devices, id, secrets)
    {
      cs := [];
      for i := 0 to |devices|
        invariant |cs| == i
        invariant forall j | 0 <= j < i :: ValidKey(secrets[j])
        invariant forall j | 0 <= j < i :: cs[j] == Credential(devices[j].id, devices[j].name, id + DESCRIPTOR + secrets[j])
      {
        var text := CredentialText(id, secrets[i]);
        if text.None? { return false, cs; }
        cs := cs + [Credential(devices[i].id, devices[i].name, text.value)];
      }
      ok := true;
    }

    /** The alias render covers the old and the new identity; Authelia's file follows. */
    method Prepare(base: State, candidate: State, f: Forwarding) returns (ok: bool)
      requires candidate.initialized && candidate.serviceId != base.serviceId && renderer.aliases == []
      requires ValidServiceId(base.serviceId) && ValidServiceId(candidate.serviceId)
      requires run.tor.id == Some(base.serviceId)
      modifies run`authelia, run`live, run`moments
      ensures ok <==> CanRender(renderer, candidate) && Prepares(f)
      ensures ok ==> Covers(run.live, candidate.serviceId)
      ensures run.authelia == old(run.authelia) || run.authelia == old(run.authelia).(config := candidate.serviceId)
      ensures ok ==> run.authelia.config == candidate.serviceId
      ensures old(run.moments) <= run.moments && CoveredFrom(run.moments, |old(run.moments)|)
    {
      BridgeRenders(renderer, base.serviceId, candidate);
      var bridge := renderer.(aliases := [base.serviceId]);
      var site;
      ok, site := Render(bridge, candidate);
      if !ok { return; }
      CoversIff(bridge, candidate, base.serviceId);
      CoversIff(bridge, candidate, candidate.serviceId);
      ok := run.ApplyCaddy(site, f.alias);
      if !ok { return; }
      ok := run.WriteAuthelia(candidate.serviceId, f.config);
      ok := ok && f.accepted;                // Authelia validates the file
    }

    /** Once Tor runs as the new identity: Authelia's restart and the final render. */
    method Settle(candidate: State, f: Forwarding) returns (ok: bool)
      requires candidate.initialized && ValidServiceId(candidate.serviceId) && CanRender(renderer, candidate)
      requires run.tor.id == Some(candidate.serviceId)
      modifies run`authelia, run`live, run`moments
      ensures ok <==> f.authelia.Fine? && f.final.Fine?
      ensures ok ==> run.live == Config(renderer, candidate)
      ensures ok ==> run.authelia == old(run.authelia).(domain := candidate.serviceId, running := old(run.authelia).config)
      ensures old(run.moments) <= run.moments && CoveredFrom(run.moments, |old(run.moments)|)
    {
      run.authelia := run.authelia.(domain := candidate.serviceId);
      ok := run.RestartAuthelia(f.authelia);
      if !ok { return; }
      ok := FinalRender(candidate, f.final);
    }

    method FinalRender(candidate: State, fate: Fate) returns (ok: bool)
      requires candidate.initialized && ValidServiceId(candidate.serviceId) && CanRender(renderer, candidate)
      modifies run`live, run`moments
      ensures ok == fate.Fine?
      ensures ok ==> run.live == Config(renderer, candidate) && Covers(run.live, candidate.serviceId)
      ensures run.moments == old(run.moments) || run.moments == old(run.moments) + [Moment(run.tor.id, run.live)]
      ensures ok ==> run.moments == old(run.moments) + [Moment(run.tor.id, run.live)]
      ensures run.moments != old(run.moments) ==> Covers(run.live, candidate.serviceId)
    {
      var rendered, site := Render(renderer, candidate);
      CoversIff(renderer, candidate, candidate.serviceId);
      ok := run.ApplyCaddy(site, fate);
    }

    /** The forward run from the staged identity: alias render, Authelia's file, activation, Tor,
        Authelia, final render. At every moment Caddy covers what Tor publishes. */
    method Forward(base: State, candidate: State, n: nat, f: Forwarding, ghost home: Dir, ghost staged: Dir) returns (p: Progress)
      requires candidate.initialized && candidate.serviceId != base.serviceId && renderer.aliases == []
      requires ValidServiceId(base.serviceId) && ValidServiceId(candidate.serviceId)
      requires Staged(n) in run.disk.dirs && run.disk.dirs[Staged(n)] == staged && IdOf(staged.files) == Some(candidate.serviceId)
      requires StandsAt(run.disk.dirs, run.torrc, run.tor, run.authelia, run.live, home, base.serviceId, run.live)
      modifies run`tor, run`authelia, run`live, run`moments, run.disk
      ensures p.verdict.Done? <==> CanRender(renderer, candidate) && Forwards(f)
      ensures p.verdict.Crash? ==> ActivationCrashes(f.activate)
      ensures p.verdict.Done? ==> p.backup && p.authRestarted
      ensures p.verdict.Done? ==>
                StandsAt(run.disk.dirs, run.torrc, run.tor, run.authelia, run.live, staged, candidate.serviceId, Config(renderer, candidate))
      ensures p.verdict.Error? && !p.backup ==> run.tor == old(run.tor) && !p.authRestarted
      ensures p.verdict.Error? && !p.backup && Active in run.disk.dirs ==> run.disk.dirs[Active] == home
      ensures p.verdict.Error? && !p.backup ==>
                (Active !in run.disk.dirs <==> CanRender(renderer, candidate) && Strands(f))
      ensures p.verdict.Error? && p.backup ==> !Strands(f)
      ensures !p.verdict.Crash? && p.backup ==> Active in run.disk.dirs && run.disk.dirs[Active] == staged
      ensures !p.verdict.Crash? && p.backup ==> Previous in run.disk.dirs && run.disk.dirs[Previous] == home
      ensures p.verdict.Error? && !p.authRestarted ==> run.authelia.running == base.serviceId
      ensures Settles(run.disk.dirs, base.serviceId) == Some(home)
      ensures old(run.moments) <= run.moments && CoveredFrom(run.moments, |old(run.moments)|)
    {
      p := Progress(Error, false, false);
      var ok := Prepare(base, candidate, f);
      if !ok { return; }
      var v := run.disk.Activate(n, f.activate, base.serviceId);
      if !v.Done? { return Progress(v, false, false); }
      p := Progress(Error, true, false);
      ok := run.ReloadTor(f.tor);
      if !ok { return; }
      p := Progress(Error, true, true);
      ok := Settle(candidate, f);
      if !ok { return; }
      p := Progress(Done, true, true);
    }

    /** Takes a rotation back. Every step is tried even after another has failed. Tor restarts
        as the old identity before Caddy is rendered again, so with a backup to restore the old
        identity is covered throughout exactly when the live configuration covers it at the start. */
    method Rollback(base: State, n: nat, p: Progress, f: Undoing, ghost home: Dir) returns (v: Verdict)
      requires base.initialized && ValidServiceId(base.serviceId) && IdOf(home.files) == Some(base.serviceId)
      requires p.backup ==> Active in run.disk.dirs && Previous in run.disk.dirs && run.disk.dirs[Previous] == home
      requires p.backup ==> IdAt(run.disk.dirs, Active) != Some(base.serviceId)
      requires Settles(run.disk.dirs, base.serviceId) == Some(home)
      modifies run`tor, run`authelia, run`live, run`moments, run`undos, run.disk
      ensures run.undos == old(run.undos) + 1
      ensures Undoes(f) && CanRender(renderer, base) ==> v.Done?
      ensures v.Crash? ==> UndoingCrashes(f)
      ensures v.Done? ==> run.live == Config(renderer, base)
      ensures v.Done? ==> run.authelia == Authelia(base.serviceId, base.serviceId,
                                                   if p.authRestarted then base.serviceId else old(run.authelia).running)
      ensures v.Done? && p.backup ==> Active in run.disk.dirs && run.disk.dirs[Active] == home && Previous !in run.disk.dirs
      ensures v.Done? && p.backup ==> run.tor == OnDisk(run.disk.dirs, run.torrc)
      ensures !p.backup ==> run.tor == old(run.tor) && SameButStage(run.disk.dirs, old(run.disk.dirs), n)
      ensures Settles(run.disk.dirs, base.serviceId) == Some(home)
      ensures old(run.moments) <= run.moments
      ensures v.Done? && p.backup ==>
                (CoveredFrom(run.moments, |old(run.moments)|) <==> Covers(old(run.live), base.serviceId))
    {
      run.undos := run.undos + 1;
      var identity := RestoreDisk(base, n, p, f, home);
      if identity.Crash? { return Crash; }
      var written := run.WriteAuthelia(base.serviceId, f.config);
      run.authelia := run.authelia.(domain := base.serviceId);
      var tor, auth := true, true;
      if p.backup { tor := run.ReloadTor(f.tor); }
      ghost var between := Moment(run.tor.id, run.live);
      if p.authRestarted { auth := run.RestartAuthelia(f.authelia); }
      var caddy := RenderPrior(base, f.caddy);
      TwoMoments(old(run.moments), between, Moment(run.tor.id, run.live));
      v := if identity.Done? && written && tor && auth && caddy then Done else Error;
    }

    /** The stage goes, errors ignored; a backup is restored. */
    method RestoreDisk(base: State, n: nat, p: Progress, f: Undoing, ghost home: Dir) returns (v: Verdict)
      requires IdOf(home.files) == Some(base.serviceId)
      requires p.backup ==> Active in run.disk.dirs && Previous in run.disk.dirs && run.disk.dirs[Previous] == home
      requires p.backup ==> IdAt(run.disk.dirs, Active) != Some(base.serviceId)
      requires Settles(run.disk.dirs, base.serviceId) == Some(home)
      modifies run.disk
      ensures !f.sweep.Crash? && f.restore == RESTORES ==> v.Done?
      ensures v.Crash? ==> UndoingCrashes(f)
      ensures v.Done? && p.backup ==> Active in run.disk.dirs && run.disk.dirs[Active] == home && Previous !in run.disk.dirs
      ensures !p.backup ==> SameButStage(run.disk.dirs, old(run.disk.dirs), n)
      ensures Settles(run.disk.dirs, base.serviceId) == Some(home)
    {
      v := run.disk.RemoveStage(n, f.sweep);
      if v.Crash? { return; }
      v := Done;
      if p.backup { v := run.disk.Restore(f.restore, base.serviceId); }
    }

    method RenderPrior(base: State, fate: Fate) returns (ok: bool)
      requires base.initialized && ValidServiceId(base.serviceId)
      modifies run`live, run`moments
      ensures ok <==> fate.Fine? && CanRender(renderer, base)
      ensures old(run.moments) <= run.moments
      ensures ok ==> run.live == Config(renderer, base) && Covers(run.live, base.serviceId)
      ensures ok ==> run.moments == old(run.moments) + [Moment(run.tor.id, run.live)]
    {
      var prior;
      ok, prior := Render(renderer, base);
      if !ok { return; }
      CoversIff(renderer, base, base.serviceId);
      ok := run.ApplyCaddy(prior, fate);
    }

    /** A rotation. It is done exactly if the new identity can be staged and rendered and every
        forward step works. Otherwise, once every rollback step works, everything is as before,
        except exactly when the activation could neither put the new directory in place nor move
        the old one back: then the rollback has no backup to restore. However it ends, even by a
        crash, the old identity can be recovered. */
    method Apply(base: State, n: nat, generated: Files, secrets: seq<string>, f: RotationFate, ghost home: Dir)
      returns (v: Verdict, candidate: State, cs: seq<Credential>)
      requires base.initialized && ValidServiceId(base.serviceId) && IdOf(generated) != Some(base.serviceId)
      requires CanRender(renderer, base) && renderer.aliases == []
      requires StandsAt(run.disk.dirs, run.torrc, run.tor, run.authelia, run.live, home, base.serviceId, Config(renderer, base))
      modifies run`tor, run`authelia, run`live, run`moments, run`undos, run.disk
      ensures v.Done? <==> Rotates(old(run.disk.dirs), n, base, generated, secrets, f) && Forwards(f.forward)
      ensures v.Crash? ==> RotationCrashes(f)
      ensures v.Done? ==> candidate == Candidate(base, generated, secrets, publicOf)
      ensures v.Done? ==> RekeysEach(base, candidate, secrets, publicOf) && IdOf(generated) == Some(candidate.serviceId)
      ensures v.Done? ==> Belong(cs, candidate.devices, candidate.serviceId, secrets)
      ensures v.Done? ==> Active in run.disk.dirs && Previous in run.disk.dirs && run.disk.dirs[Previous] == home
      ensures v.Done? ==>
                StandsAt(run.disk.dirs, run.torrc, run.tor, run.authelia, run.live,
                         NewHome(generated, candidate.devices), candidate.serviceId, Config(renderer, candidate))
      ensures v.Error? && Undoes(f.back) ==>
                if Rotates(old(run.disk.dirs), n, base, generated, secrets, f) && Strands(f.forward) then Active !in run.disk.dirs
                else StandsAt(run.disk.dirs, run.torrc, run.tor, run.authelia, run.live, home, base.serviceId, Config(renderer, base))
      ensures Settles(run.disk.dirs, base.serviceId) == Some(home)
      ensures old(run.moments) <= run.moments
      ensures v.Done? ==> CoveredFrom(run.moments, |old(run.moments)|) && run.undos == old(run.undos)
      ensures v.Error? && Stageable(old(run.disk.dirs), n, base, generated, secrets, publicOf) && f.stage.Done? ==>
                run.undos == old(run.undos) + 1
      ensures run.undos <= old(run.undos) + 1
    {
      v, candidate, cs := StageCandidate(base, n, generated, secrets, f);
      if !v.Done? { return; }
      HostnameIsValid(generated);
      v := Switch(base, candidate, n, f, home, NewHome(generated, candidate.devices));
    }

    /** New keys, the staged identity, and the credentials for it. */
    method StageCandidate(base: State, n: nat, generated: Files, secrets: seq<string>, f: RotationFate)
      returns (v: Verdict, candidate: State, cs: seq<Credential>)
      modifies run.disk
      ensures v.Done? <==> Stageable(old(run.disk.dirs), n, base, generated, secrets, publicOf) && f.stage.Done?
      ensures v.Crash? ==> f.stage.Crash? || f.sweep.Crash?
      ensures SameButStage(run.disk.dirs, old(run.disk.dirs), n)
      ensures v.Done? ==> candidate == Candidate(base, generated, secrets, publicOf)
      ensures v.Done? ==> RekeysEach(base, candidate, secrets, publicOf) && IdOf(generated) == Some(candidate.serviceId)
      ensures v.Done? ==> Belong(cs, candidate.devices, candidate.serviceId, secrets)
      ensures v.Done? ==> Staged(n) in run.disk.dirs && run.disk.dirs[Staged(n)] == NewHome(generated, candidate.devices)
    {
      candidate, cs := base, [];
      var ok, devices := Rekey(base.devices, secrets);
      if !ok { v := Error; return; }
      var auth := new AuthFiles.AuthDir(map[]);
      ok := auth.Reconcile(devices, None, true);
      EmptyReconciled(AuthFiles.Expected(devices, None));
      v := run.disk.Stage(n, generated, auth.entries, if ok || f.stage.Crash? then f.stage else Error, f.sweep);
      if !v.Done? { return; }
      HostnameIsValid(generated);
      candidate := Rotated(base, IdOf(generated).value, devices);
      ok, cs := Credentials(devices, candidate.serviceId, secrets);
      if !ok {
        v := run.disk.RemoveStage(n, f.sweep);
        if !v.Crash? { v := Error; }
      }
    }

    /** The state after the rotation can be staged and rendered, and staging works. */
    predicate Rotates(dirs: Dirs, n: nat, base: State, generated: Files, secrets: seq<string>, f: RotationFate) {
      && Stageable(dirs, n, base, generated, secrets, publicOf) && f.stage.Done?
      && CanRender(renderer, Candidate(base, generated, secrets, publicOf))
    }

    /** From the staged identity: forward, and back if that fails. */
    method Switch(base: State, candidate: State, n: nat, f: RotationFate, ghost home: Dir, ghost staged: Dir) returns (v: Verdict)
      requires base.initialized && candidate.initialized && candidate.serviceId != base.serviceId
      requires ValidServiceId(base.serviceId) && ValidServiceId(candidate.serviceId)
      requires CanRender(renderer, base) && renderer.aliases == []
      requires Staged(n) in run.disk.dirs && run.disk.dirs[Staged(n)] == staged && IdOf(staged.files) == Some(candidate.serviceId)
      requires StandsAt(run.disk.dirs, run.torrc, run.tor, run.authelia, run.live, home, base.serviceId, Config(renderer, base))
      modifies run`tor, run`authelia, run`live, run`moments, run`undos, run.disk
      ensures v.Done? <==> CanRender(renderer, candidate) && Forwards(f.forward)
      ensures v.Crash? ==> RotationCrashes(f)
      ensures v.Done? ==> Active in run.disk.dirs && Previous in run.disk.dirs && run.disk.dirs[Previous] == home
      ensures v.Done? ==>
                StandsAt(run.disk.dirs, run.torrc, run.tor, run.authelia, run.live, staged, candidate.serviceId, Config(renderer, candidate))
      ensures v.Error? && Undoes(f.back) ==>
                if CanRender(renderer, candidate) && Strands(f.forward) then Active !in run.disk.dirs
                else StandsAt(run.disk.dirs, run.torrc, run.tor, run.authelia, run.live, home, base.serviceId, Config(renderer, base))
      ensures Settles(run.disk.dirs, base.serviceId) == Some(home)
      ensures old(run.moments) <= run.moments
      ensures v.Done? ==> CoveredFrom(run.moments, |old(run.moments)|) && run.undos == old(run.undos)
      ensures v.Error? ==> run.undos == old(run.undos) + 1
      ensures run.undos <= old(run.undos) + 1
    {
      var p := Forward(base, candidate, n, f.forward, home, staged);
      v := p.verdict;
      if v.Error? {
        var back := Rollback(base, n, p, f.back, home);
        if back.Crash? { v := Crash; }
      }
    }
  }

  lemma EmptyReconciled(expected: map<string, string>)
    ensures AuthFiles.Reconciled(map[], expected) == AuthFiles.FilesOf(expected)
  {
    forall name | name in AuthFiles.Names(expected) ensures AuthFiles.Wanted(name, expected) { }
  }
}
