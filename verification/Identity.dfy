/** The onion identity directories and their moves during rotation and recovery.

 How each file step ends is given by the caller: it works, fails, or is the point of a
 crash, which may come before or after its effect. A recursive removal that does not work
 may leave anything of what it was to remove. */
module Identity {
  import opened Options
  import opened Text
  import opened Model
  import AuthFiles

  type Files = map<string, string>

  /** A hidden-service directory: its files, and the listing of its `authorized_clients`
      directory if that exists. */
  datatype Dir = Dir(files: Files, auth: Option<AuthFiles.Listing>)

  /** The places an identity can be: the active directory, its `.previous` and `.failed`
      siblings, and numbered stages with their hidden-service directory. */
  datatype Path = Active | Previous | Failed | StageRoot(n: nat) | Staged(n: nat)

  type Dirs = map<Path, Dir>

  // ----- Service identifiers -----

  function Trim(s: string): string
    decreases |s|
  {
    if s == "" then ""
    else if IsSpace(s[0]) then Trim(s[1..])
    else if IsSpace(s[|s| - 1]) then Trim(s[..|s| - 1])
    else s
  }

  function HostnameId(text: string): Option<string> {
    var host := Trim(text);
    if |text| <= 128 && |host| == 62 && host[56..] == ".onion" && ValidServiceId(host[..56]) then Some(host[..56]) else None
  }

  predicate AllSpace(s: string) {
    forall i | 0 <= i < |s| :: IsSpace(s[i])
  }

  /** Trimming takes away what is around a text that begins and ends with something else. */
  lemma {:induction false} TrimTakesSpaces(a: string, m: string, b: string)
    requires AllSpace(a) && AllSpace(b) && m != "" && Trimmed(m)
    ensures Trim(a + m + b) == m
    decreases |a| + |b|
  {
    var s := a + m + b;
    if a != "" {
      assert s[0] == a[0] && s[1..] == a[1..] + m + b;
      TrimTakesSpaces(a[1..], m, b);
    } else if b != "" {
      assert s[0] == m[0] && s[|s| - 1] == b[|b| - 1] && s[..|s| - 1] == a + m + b[..|b| - 1];
      TrimTakesSpaces(a, m, b[..|b| - 1]);
    } else {
      assert s == m;
    }
  }

  /** Nothing but spaces is taken away. */
  lemma {:induction false} TrimLeavesTheRest(s: string) returns (a: string, b: string)
    ensures AllSpace(a) && AllSpace(b) && s == a + Trim(s) + b
    decreases |s|
  {
    a, b := "", "";
    if s != "" && IsSpace(s[0]) {
      a, b := TrimLeavesTheRest(s[1..]);
      a := [s[0]] + a;
      assert s == [s[0]] + s[1..];
    } else if s != "" && IsSpace(s[|s| - 1]) {
      a, b := TrimLeavesTheRest(s[..|s| - 1]);
      b := b + [s[|s| - 1]];
      assert s == s[..|s| - 1] + [s[|s| - 1]];
    }
  }

  /** A hostname file names an identity exactly if it is short and is its onion name with
      nothing but white space around it. */
  lemma HostnameIff(text: string, id: string)
    ensures HostnameId(text) == Some(id) <==>
            |text| <= 128 && ValidServiceId(id) &&
            exists a, b :: AllSpace(a) && AllSpace(b) && text == a + (id + ".onion") + b
  {
    if HostnameId(text) == Some(id) {
      var a, b := TrimLeavesTheRest(text);
      var host := Trim(text);
      assert host == host[..56] + host[56..];
    }
    if a, b :| AllSpace(a) && AllSpace(b) && text == a + (id + ".onion") + b && ValidServiceId(id) && |text| <= 128 {
      var host := id + ".onion";
      assert host[0] == id[0] && host[|host| - 1] == 'n' && host[56..] == ".onion" && host[..56] == id;
      TrimTakesSpaces(a, host, b);
    }
  }

  /** The service identifier of a directory's files. */
  function IdOf(files: Files): Option<string> {
    if "hostname" in files then HostnameId(files["hostname"]) else None
  }

  function IdAt(dirs: Dirs, p: Path): Option<string> {
    if p in dirs then IdOf(dirs[p].files) else None
  }

  // ----- Crash safety -----

  predicate HoldsFiles(dirs: Dirs, p: Path, files: Files) {
    p in dirs && dirs[p].files == files
  }

  /** Startup can bring back exactly `files`, the identity `id`: they are active, or they are
      the backup and the active directory does not pass for the same identity. */
  predicate Recoverable(dirs: Dirs, id: string, files: Files) {
    && IdOf(files) == Some(id)
    && (HoldsFiles(dirs, Active, files) || (HoldsFiles(dirs, Previous, files) && IdAt(dirs, Active) != Some(id)))
  }

  /** The directory startup will settle on for an identity: the active one if it passes for it,
      otherwise the backup. */
  function Settles(dirs: Dirs, id: string): Option<Dir> {
    if IdAt(dirs, Active) == Some(id) then Some(dirs[Active])
    else if IdAt(dirs, Previous) == Some(id) then Some(dirs[Previous])
    else None
  }

  lemma RecoverableIsSettled(dirs: Dirs, id: string, files: Files)
    ensures Recoverable(dirs, id, files) <==> Settles(dirs, id).Some? && Settles(dirs, id).value.files == files
  {
  }

  /** Without its backup an identity survives exactly when the active directory already
      passes for it: so a rotation may begin, and delete the backup, only then. */
  lemma BackupIsSpare(dirs: Dirs, id: string, files: Files)
    requires Recoverable(dirs, id, files)
    ensures Recoverable(dirs - {Previous}, id, files) <==> IdAt(dirs, Active) == Some(id)
  {
  }

  predicate NoStage(dirs: Dirs) {
    forall p | p in dirs :: !p.StageRoot? && !p.Staged?
  }

  /** What an interrupted removal can leave of a directory. */
  predicate Remnant(part: Dir, whole: Dir) {
    && (forall f | f in part.files :: f in whole.files && whole.files[f] == part.files[f])
    && (part.auth.Some? ==>
          && whole.auth.Some?
          && forall c | c in part.auth.value :: c in whole.auth.value && whole.auth.value[c] == part.auth.value[c])
  }

  function Moved(dirs: Dirs, from: Path, to: Path): Dirs
    requires from in dirs
  {
    (dirs - {from})[to := dirs[from]]
  }

  /** Renaming refuses an existing directory as its target. */
  predicate CanMove(dirs: Dirs, from: Path, to: Path) {
    from in dirs && to !in dirs
  }

  /** Two states of the disk differ at most at `p`. */
  ghost predicate SameBut(a: Dirs, b: Dirs, p: Path) {
    forall q: Path | q != p :: (q in a <==> q in b) && (q in a ==> a[q] == b[q])
  }

  ghost predicate SameButStage(a: Dirs, b: Dirs, n: nat) {
    forall q: Path | q != Staged(n) && q != StageRoot(n) :: (q in a <==> q in b) && (q in a ==> a[q] == b[q])
  }

  ghost predicate SameButStages(a: Dirs, b: Dirs) {
    forall q: Path | !q.Staged? && !q.StageRoot? :: (q in a <==> q in b) && (q in a ==> a[q] == b[q])
  }

  // ----- How the steps of an operation end -----

  datatype Activation = Activation(clear: Verdict, retire: Verdict, install: Verdict, undo: Verdict, sweep: Verdict)

  datatype Restoration = Restoration(clear: Verdict, retire: Verdict, install: Verdict, undo: Verdict, drop: Verdict)

  /** Removals of stages not listed here work. */
  datatype Recovery = Recovery(stages: map<nat, Verdict>, drop: Verdict, restore: Restoration)

  const RESTORES := Restoration(Done, Done, Done, Done, Done)

  predicate AllSwept(stages: map<nat, Verdict>) {
    forall n | n in stages :: stages[n].Done?
  }

  predicate NoneCrashes(stages: map<nat, Verdict>) {
    forall n | n in stages :: !stages[n].Crash?
  }

  /** The steps of a recovery work; errors in sweeping stages are ignored. */
  predicate Recovers(f: Recovery) {
    NoneCrashes(f.stages) && f.drop.Done? && f.restore == RESTORES
  }

  /** The old directory was moved away, and neither the new one in nor the old one back. */
  predicate BothRenamesFail(f: Activation) {
    f.clear.Done? && f.retire.Done? && f.install.Error? && f.undo.Error?
  }

  /** How activation ends, with both directories in place. */
  function Activated(f: Activation): Verdict {
    if !f.clear.Done? then f.clear
    else if !f.retire.Done? then f.retire
    else if f.install.Done? then (if f.sweep.Crash? then Crash else Done)
    else if f.install.Crash? || f.undo.Crash? then Crash
    else Error
  }

  /** The client directory is as it was, or it was missing and is empty. */
  predicate KeepsListing(before: Dir, after: Dir) {
    after.auth == before.auth || (before.auth.None? && after.auth == Some(map[]))
  }

  class Disk {
    var dirs: Dirs

    constructor (dirs: Dirs)
      ensures this.dirs == dirs
    {
      this.dirs := dirs;
    }

    method Rename(from: Path, to: Path, fate: Verdict) returns (v: Verdict)
      modifies this
      ensures v == if fate.Done? && !CanMove(old(dirs), from, to) then Error else fate
      ensures v.Done? ==> CanMove(old(dirs), from, to) && dirs == Moved(old(dirs), from, to)
      ensures v.Error? ==> dirs == old(dirs)
      ensures v.Crash? ==> dirs == old(dirs) || (CanMove(old(dirs), from, to) && dirs == Moved(old(dirs), from, to))
    {
      if fate.Error? { return Error; }
      if !CanMove(dirs, from, to) { return if fate.Done? then Error else Crash; }
      var reached: bool := *;
      if fate.Crash? && !reached { return Crash; }
      dirs := Moved(dirs, from, to);
      v := fate;
    }

    /** Entries go one by one, in any order; removing what is not there works. */
    method RemoveAll(p: Path, fate: Verdict) returns (v: Verdict)
      modifies this
      ensures v == fate
      ensures SameBut(dirs, old(dirs), p)
      ensures v.Done? ==> p !in dirs
      ensures p in dirs ==> p in old(dirs) && Remnant(dirs[p], old(dirs)[p])
    {
      v := fate;
      while p in dirs
        invariant SameBut(dirs, old(dirs), p)
        invariant p in dirs ==> p in old(dirs) && Remnant(dirs[p], old(dirs)[p])
        decreases if p in dirs then 2 + |dirs[p].files| + (if dirs[p].auth.Some? then 1 + |dirs[p].auth.value| else 0) else 0
      {
        var stops: bool := *;
        if !fate.Done? && stops { return; }
        RemoveOne(p);
      }
    }

    /** Unlinks one entry of the directory, or the empty directory itself. */
    method RemoveOne(p: Path)
      requires p in dirs
      modifies this
      ensures SameBut(dirs, old(dirs), p)
      ensures p in dirs ==> Remnant(dirs[p], old(dirs)[p])
      ensures p in dirs ==> |dirs[p].files| + (if dirs[p].auth.Some? then 1 + |dirs[p].auth.value| else 0) <
                            |old(dirs)[p].files| + (if old(dirs)[p].auth.Some? then 1 + |old(dirs)[p].auth.value| else 0)
    {
      var d := dirs[p];
      var fileFirst: bool := *;
      if d.files != map[] && (fileFirst || d.auth.None?) {
        var f :| f in d.files;
        assert d.files == (d.files - {f})[f := d.files[f]];
        dirs := dirs[p := d.(files := d.files - {f})];
      } else if d.auth.Some? && d.auth.value != map[] {
        var c :| c in d.auth.value;
        assert d.auth.value == (d.auth.value - {c})[c := d.auth.value[c]];
        dirs := dirs[p := d.(auth := Some(d.auth.value - {c}))];
      } else if d.auth.Some? {
        dirs := dirs[p := d.(auth := None)];
      } else {
        dirs := dirs - {p};
      }
    }

    /** The stage with everything under it. */
    method RemoveStage(n: nat, fate: Verdict) returns (v: Verdict)
      modifies this
      ensures v == fate
      ensures SameButStage(dirs, old(dirs), n)
      ensures v.Done? ==> Staged(n) !in dirs && StageRoot(n) !in dirs
      ensures Staged(n) in dirs ==> Staged(n) in old(dirs)
      ensures StageRoot(n) in dirs ==> StageRoot(n) in old(dirs)
    {
      v := RemoveAll(Staged(n), fate);
      var further: bool := *;
      if !v.Done? && !further { return; }
      v := RemoveAll(StageRoot(n), fate);
    }

    /** Builds a new identity beside the active one: Tor puts `generated` into the stage, whose
        clients are `clients`. A failed attempt is swept, ignoring errors. */
    method Stage(n: nat, generated: Files, clients: AuthFiles.Listing, fate: Verdict, sweep: Verdict) returns (v: Verdict)
      modifies this
      ensures SameButStage(dirs, old(dirs), n)
      ensures v.Done? <==> fate.Done? && StageRoot(n) !in old(dirs) && Staged(n) !in old(dirs) && IdOf(generated).Some?
      ensures v.Crash? ==> fate.Crash? || sweep.Crash?
      ensures v.Done? ==> Staged(n) in dirs && dirs[Staged(n)] == Dir(generated, Some(clients))
    {
      if StageRoot(n) in dirs || Staged(n) in dirs { return if fate.Crash? then Crash else Error; }
      var stops: bool := *;
      if !fate.Done? && stops { return fate; }
      dirs := dirs[StageRoot(n) := Dir(map[], None)];
      stops := *;
      if fate.Done? || !stops { dirs := dirs[Staged(n) := Dir(map[], Some(clients))]; }
      if fate.Done? { dirs := dirs[Staged(n) := Dir(generated, Some(clients))]; }
      if fate.Crash? || (fate.Done? && IdOf(generated).Some?) { return fate; }
      v := RemoveStage(n, sweep);
      if v.Done? { v := Error; }
    }

    /** Moves the active identity to the backup and the stage into its place. The caller is given
        a backup to restore exactly if this is done. */
    method Activate(n: nat, f: Activation, ghost id: string) returns (v: Verdict)
      modifies this
      ensures Active in old(dirs) && Staged(n) in old(dirs) ==> v == Activated(f)
      ensures v.Crash? ==> f.clear.Crash? || f.retire.Crash? || f.install.Crash? || f.undo.Crash? || f.sweep.Crash?
      ensures v.Done? ==> Active in old(dirs) && Staged(n) in old(dirs) && Active in dirs && Previous in dirs
      ensures v.Done? ==> dirs[Active] == old(dirs)[Staged(n)] && dirs[Previous] == old(dirs)[Active]
      ensures v.Error? && Active in dirs ==> Active in old(dirs) && dirs[Active] == old(dirs)[Active]
      ensures Active in old(dirs) && Staged(n) in old(dirs) && v.Error? ==> (Active !in dirs <==> BothRenamesFail(f))
      ensures IdAt(old(dirs), Active) == Some(id) && IdAt(old(dirs), Staged(n)) != Some(id) ==>
                Settles(dirs, id) == Settles(old(dirs), id)
    {
      v := RemoveAll(Previous, f.clear);
      if !v.Done? { return; }
      v := Rename(Active, Previous, f.retire);
      if !v.Done? { return; }
      v := Rename(Staged(n), Active, f.install);
      if v.Crash? { return; }
      if v.Error? {
        var undone := Rename(Previous, Active, f.undo);
        if undone.Crash? { v := Crash; }
        return;
      }
      var swept := RemoveStage(n, f.sweep);
      if swept.Crash? { v := Crash; }
    }

    /** Puts the backup back. */
    method Restore(f: Restoration, ghost id: string) returns (v: Verdict)
      modifies this
      ensures f == RESTORES && Active in old(dirs) && Previous in old(dirs) ==> v.Done?
      ensures v.Crash? ==> f.clear.Crash? || f.retire.Crash? || f.install.Crash? || f.undo.Crash? || f.drop.Crash?
      ensures v.Done? ==> Previous in old(dirs) && Active in dirs && dirs[Active] == old(dirs)[Previous] && Previous !in dirs
      ensures NoStage(old(dirs)) ==> NoStage(dirs)
      ensures IdAt(old(dirs), Previous) == Some(id) && IdAt(old(dirs), Active) != Some(id) ==>
                Settles(dirs, id) == Settles(old(dirs), id)
    {
      v := RemoveAll(Failed, f.clear);
      if v.Crash? { return; }
      v := Rename(Active, Failed, f.retire);
      if !v.Done? { return; }
      v := Rename(Previous, Active, f.install);
      if v.Crash? { return; }
      if v.Error? {
        var undone := Rename(Failed, Active, f.undo);
        if undone.Crash? { v := Crash; }
        return;
      }
      v := RemoveAll(Failed, f.drop);
    }

    method Finish(fate: Verdict, ghost id: string) returns (v: Verdict)
      modifies this
      ensures v == fate
      ensures SameBut(dirs, old(dirs), Previous)
      ensures IdAt(old(dirs), Active) == Some(id) ==> Settles(dirs, id) == Settles(old(dirs), id)
    {
      v := RemoveAll(Previous, fate);
    }

    /** Startup creates the directories that are missing. */
    method Ensure(fate: Verdict, ghost id: string) returns (v: Verdict)
      modifies this
      ensures v == fate
      ensures SameBut(dirs, old(dirs), Active)
      ensures Active in old(dirs) ==> Active in dirs && dirs[Active].files == old(dirs)[Active].files
      ensures v.Done? ==> Active in dirs && dirs[Active].auth.Some?
      ensures IdAt(dirs, Active) == IdAt(old(dirs), Active)
      ensures Settles(dirs, id) == Settles(old(dirs), id) ||
              (IdAt(dirs, Active) == Some(id) && old(dirs)[Active].auth.None? && dirs[Active] == old(dirs)[Active].(auth := Some(map[])))
      ensures v.Done? && IdAt(dirs, Active) == Some(id) ==> Settles(dirs, id).value.auth.Some?
    {
      v := fate;
      var stops: bool := *;
      if !fate.Done? && stops { return; }
      if Active !in dirs { dirs := dirs[Active := Dir(map[], None)]; }
      stops := *;
      if !fate.Done? && stops { return; }
      if dirs[Active].auth.None? { dirs := dirs[Active := dirs[Active].(auth := Some(map[]))]; }
    }

    /** Removes the stages, ignoring errors, then settles which directory holds the durable
        identity. With an active directory to move away it works if its steps do. */
    method Recover(id: string, f: Recovery) returns (v: Verdict)
      modifies this
      ensures Settles(old(dirs), id).Some? && Active in old(dirs) && Recovers(f) ==> v.Done?
      ensures Settles(old(dirs), id).Some? ==> Settles(dirs, id) == Settles(old(dirs), id)
      ensures Settles(old(dirs), id).Some? && v.Done? ==>
                Active in dirs && dirs[Active] == Settles(old(dirs), id).value && Previous !in dirs
      ensures IdAt(old(dirs), Active) == Some(id) ==> IdAt(dirs, Active) == Some(id)
      ensures v.Done? && AllSwept(f.stages) ==> NoStage(dirs)
      ensures v.Done? && id != "" ==> Settles(old(dirs), id).Some?
    {
      v := RemoveStages(f.stages);
      if v.Crash? { return; }
      if id == "" || IdAt(dirs, Active) == Some(id) {
        v := RemoveAll(Previous, f.drop);
        return;
      }
      if IdAt(dirs, Previous) != Some(id) { return Error; }
      v := Restore(f.restore, id);
    }

    /** The first steps of every startup. From whatever a crash has left of a recoverable identity,
        they leave exactly its files active, no backup and, if the sweeping works too, no stage;
        and if they do not work, everything is still recoverable. */
    method EnsureAndRecover(id: string, ensure: Verdict, f: Recovery, ghost files: Files) returns (v: Verdict)
      requires Recoverable(dirs, id, files)
      modifies this
      ensures ensure.Done? && Recovers(f) ==> v.Done?
      ensures v.Done? ==> HoldsFiles(dirs, Active, files) && Previous !in dirs
      ensures v.Done? && AllSwept(f.stages) ==> NoStage(dirs)
      ensures Recoverable(dirs, id, files)
      ensures v.Done? && IdAt(old(dirs), Active) == Some(id) ==> dirs[Active].auth.Some?
      ensures KeepsListing(Settles(old(dirs), id).value, Settles(dirs, id).value)
      ensures IdAt(old(dirs), Active) == Some(id) ==> IdAt(dirs, Active) == Some(id)
    {
      RecoverableIsSettled(dirs, id, files);
      v := Ensure(ensure, id);
      if v.Done? { v := Recover(id, f); }
      RecoverableIsSettled(dirs, id, files);
    }

    method RemoveStages(fates: map<nat, Verdict>) returns (v: Verdict)
      modifies this
      ensures SameButStages(dirs, old(dirs))
      ensures NoneCrashes(fates) ==> v.Done?
      ensures AllSwept(fates) ==> v.Done? && NoStage(dirs)
      ensures !v.Error?
    {
      var todo := set p | p in dirs && (p.StageRoot? || p.Staged?) :: p.n;
      while todo != {}
        invariant SameButStages(dirs, old(dirs))
        invariant AllSwept(fates) ==> forall p | p in dirs && (p.StageRoot? || p.Staged?) :: p.n in todo
        decreases todo
      {
        var n :| n in todo;
        todo := todo - {n};
        v := RemoveStage(n, if n in fates then fates[n] else Done);
        if v.Crash? { return; }
      }
      v := Done;
    }
  }
}
