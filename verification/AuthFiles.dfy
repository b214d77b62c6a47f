/** Tor's client authorization directory and its reconciliation with the state. */
module AuthFiles {
  import opened Options
  import opened Model

  /** A directory entry: a regular file with its text, a directory, or anything else. */
  datatype Entry = Regular(text: string) | Directory | Special

  type Listing = map<string, Entry>

  function FileName(id: string): (name: string)
    ensures IsAuthName(name) && IdOf(name) == id
  {
    id + ".auth"
  }

  predicate IsAuthName(name: string) {
    |name| >= 5 && name[|name| - 5..] == ".auth"
  }

  function IdOf(name: string): string
    requires IsAuthName(name)
  {
    name[..|name| - 5]
  }

  lemma NameOfId(name: string)
    requires IsAuthName(name)
    ensures FileName(IdOf(name)) == name
  {
  }

  function AuthText(key: string): string {
    "descriptor:x25519:" + key + "\n"
  }

  /** The clients a state authorizes: its devices and the pending one. */
  function DeviceKeys(ds: seq<Device>): map<string, string> {
    if ds == [] then map[] else DeviceKeys(ds[..|ds| - 1])[ds[|ds| - 1].id := ds[|ds| - 1].publicKey]
  }

  function Expected(ds: seq<Device>, pending: Option<PendingDevice>): map<string, string> {
    if pending.None? then DeviceKeys(ds)
    else DeviceKeys(ds)[pending.value.device.id := pending.value.device.publicKey]
  }

  /** A client file that no expected client owns. */
  predicate Stale(dir: Listing, name: string, expected: map<string, string>) {
    name in dir && IsAuthName(name) && !dir[name].Directory? && IdOf(name) !in expected
  }

  predicate Wanted(name: string, expected: map<string, string>) {
    IsAuthName(name) && IdOf(name) in expected
  }

  function Names(expected: map<string, string>): set<string> {
    set id | id in expected :: FileName(id)
  }

  /** What reconciliation leaves: stale client files gone, every expected client's file
      with its key, everything else as it was. */
  function Reconciled(dir: Listing, expected: map<string, string>): Listing {
    map name | name in dir.Keys + Names(expected) && !Stale(dir, name, expected) ::
      if Wanted(name, expected) then Regular(AuthText(expected[IdOf(name)])) else dir[name]
  }

  /** The listing once the files of the clients in `done` are written. */
  function Overlay(dir: Listing, expected: map<string, string>, done: set<string>): Listing
    requires done <= expected.Keys
  {
    map name | name in dir.Keys + (set id | id in done :: FileName(id)) ::
      if IsAuthName(name) && IdOf(name) in done then Regular(AuthText(expected[IdOf(name)])) else dir[name]
  }

  lemma OverlayStep(dir: Listing, expected: map<string, string>, done: set<string>, id: string)
    requires done <= expected.Keys && id in expected
    ensures Overlay(dir, expected, done)[FileName(id) := Regular(AuthText(expected[id]))] == Overlay(dir, expected, done + {id})
  {
    var a, b := Overlay(dir, expected, done)[FileName(id) := Regular(AuthText(expected[id]))], Overlay(dir, expected, done + {id});
    assert FileName(id) in b;
    forall name ensures name in a <==> name in b {
      if IsAuthName(name) { NameOfId(name); }
    }
    forall name | name in a && name in b ensures a[name] == b[name] {
      if IsAuthName(name) { NameOfId(name); }
    }
  }

  /** Clients whose turn has not come have their old entry. */
  lemma OverlayRest(dir: Listing, expected: map<string, string>, done: set<string>, id: string)
    requires done <= expected.Keys && id !in done
    ensures FileName(id) in Overlay(dir, expected, done) <==> FileName(id) in dir
    ensures FileName(id) in dir ==> Overlay(dir, expected, done)[FileName(id)] == dir[FileName(id)]
  {
    assert IdOf(FileName(id)) == id;
  }

  lemma OverlayRegular(dir: Listing, expected: map<string, string>, done: set<string>)
    requires done <= expected.Keys
    ensures AddsRegular(dir, Overlay(dir, expected, done))
  {
  }

  ghost function StaleNames(dir: Listing, expected: map<string, string>): set<string> {
    set name | name in dir && Stale(dir, name, expected)
  }

  /** Writing adds and removes no staleness. */
  lemma SameStale(dir: Listing, expected: map<string, string>, name: string)
    ensures Stale(Overlay(dir, expected, expected.Keys), name, expected) <==> Stale(dir, name, expected)
  {
    if IsAuthName(name) { NameOfId(name); }
  }

  lemma SameName(dir: Listing, expected: map<string, string>, name: string)
    ensures name in Overlay(dir, expected, expected.Keys) <==> name in dir.Keys + Names(expected)
    ensures name in Overlay(dir, expected, expected.Keys) ==>
              Overlay(dir, expected, expected.Keys)[name] ==
              if Wanted(name, expected) then Regular(AuthText(expected[IdOf(name)])) else dir[name]
  {
  }

  /** Removing what is stale from the written listing gives the reconciled one. */
  lemma OverlayWithoutStale(dir: Listing, expected: map<string, string>)
    ensures var full := Overlay(dir, expected, expected.Keys);
            full - StaleNames(full, expected) == Reconciled(dir, expected)
  {
    var full := Overlay(dir, expected, expected.Keys);
    var left, right := full - StaleNames(full, expected), Reconciled(dir, expected);
    forall name ensures name in left <==> name in right {
      SameStale(dir, expected, name);
      SameName(dir, expected, name);
    }
    forall name | name in left ensures left[name] == right[name] {
      SameName(dir, expected, name);
    }
  }

  /** The non-directory client files are exactly the expected clients with their keys. */
  lemma ReconciledIsExact(dir: Listing, expected: map<string, string>, name: string)
    ensures var out := Reconciled(dir, expected);
            && (name in out && IsAuthName(name) && !out[name].Directory? <==> Wanted(name, expected))
            && (Wanted(name, expected) ==> out[name] == Regular(AuthText(expected[IdOf(name)])))
            && (!IsAuthName(name) || (name in dir && dir[name].Directory? && !Wanted(name, expected)) ==>
                  (name in out <==> name in dir) && (name in dir ==> out[name] == dir[name]))
  {
    if IsAuthName(name) { NameOfId(name); }
  }

  /** A second reconciliation changes nothing. */
  lemma ReconciledTwice(dir: Listing, expected: map<string, string>)
    ensures Reconciled(Reconciled(dir, expected), expected) == Reconciled(dir, expected)
  {
    var out := Reconciled(dir, expected);
    forall id | id in expected ensures FileName(id) in out {
      assert FileName(id) in Names(expected);
    }
  }

  // ----- Client files as a map of clients -----

  /** The client files of a listing, which are what Tor reads. */
  function ClientFiles(dir: Listing): Listing {
    map name | name in dir && IsAuthName(name) && !dir[name].Directory? :: dir[name]
  }

  /** The files of these clients with these keys. */
  function FilesOf(clients: map<string, string>): Listing {
    map name | name in Names(clients) :: Regular(AuthText(clients[IdOf(name)]))
  }

  lemma FileOf(clients: map<string, string>, id: string)
    ensures FileName(id) in FilesOf(clients) <==> id in clients
    ensures id in clients ==> FilesOf(clients)[FileName(id)] == Regular(AuthText(clients[id]))
  {
    if FileName(id) in Names(clients) {
      var other :| other in clients && FileName(other) == FileName(id);
      assert IdOf(FileName(other)) == IdOf(FileName(id));
    }
  }

  /** From any directory contents, the client files come to be those of the expected clients. */
  lemma ReconciledClients(dir: Listing, expected: map<string, string>)
    ensures ClientFiles(Reconciled(dir, expected)) == FilesOf(expected)
  {
    var left, right := ClientFiles(Reconciled(dir, expected)), FilesOf(expected);
    forall name ensures name in left <==> name in right {
      ReconciledIsExact(dir, expected, name);
      if IsAuthName(name) { NameOfId(name); FileOf(expected, IdOf(name)); }
    }
    forall name | name in left ensures left[name] == right[name] {
      ReconciledIsExact(dir, expected, name);
    }
  }

  /** Writing a client's file writes it among the client files. */
  lemma WrittenClients(dir: Listing, id: string, key: string)
    ensures ClientFiles(dir[FileName(id) := Regular(AuthText(key))]) == ClientFiles(dir)[FileName(id) := Regular(AuthText(key))]
  {
  }

  lemma RemovedClients(dir: Listing, id: string)
    ensures ClientFiles(dir - {FileName(id)}) == ClientFiles(dir) - {FileName(id)}
  {
  }

  /** One client more or less is one file more or less. */
  lemma FilesOfMore(clients: map<string, string>, id: string, key: string)
    ensures FilesOf(clients[id := key]) == FilesOf(clients)[FileName(id) := Regular(AuthText(key))]
  {
    var left, right := FilesOf(clients[id := key]), FilesOf(clients)[FileName(id) := Regular(AuthText(key))];
    forall name ensures (name in left <==> name in right) && (name in left && name in right ==> left[name] == right[name]) {
      OneFileMore(clients, id, key, name);
    }
  }

  lemma OneFileMore(clients: map<string, string>, id: string, key: string, name: string)
    ensures var left, right := FilesOf(clients[id := key]), FilesOf(clients)[FileName(id) := Regular(AuthText(key))];
            (name in left <==> name in right) && (name in left && name in right ==> left[name] == right[name])
  {
    FileOf(clients[id := key], id);
    if IsAuthName(name) {
      NameOfId(name);
      FileOf(clients, IdOf(name));
      FileOf(clients[id := key], IdOf(name));
    } else {
      NamesAreAuthNames(clients, name);
      NamesAreAuthNames(clients[id := key], name);
    }
  }

  lemma NamesAreAuthNames(clients: map<string, string>, name: string)
    ensures name in FilesOf(clients) ==> IsAuthName(name)
  {
  }

  lemma FilesOfLess(clients: map<string, string>, id: string)
    ensures FilesOf(clients - {id}) == FilesOf(clients) - {FileName(id)}
  {
    var left, right := FilesOf(clients - {id}), FilesOf(clients) - {FileName(id)};
    forall name ensures name in left <==> name in right {
      if name in left || name in right { NameOfId(name); FileOf(clients, IdOf(name)); FileOf(clients - {id}, IdOf(name)); }
    }
  }

  /** The files determine the clients. */
  lemma FilesOfInjective(a: map<string, string>, b: map<string, string>)
    requires FilesOf(a) == FilesOf(b)
    ensures a == b
  {
    forall id ensures (id in a <==> id in b) && (id in a && id in b ==> a[id] == b[id]) {
      FileOf(a, id);
      FileOf(b, id);
      if id in a && id in b { TextInjective(a[id], b[id]); }
    }
  }

  lemma TextInjective(a: string, b: string)
    requires AuthText(a) == AuthText(b)
    ensures a == b
  {
    var p := "descriptor:x25519:";
    assert AuthText(a)[|p|..|AuthText(a)| - 1] == a;
    assert AuthText(b)[|p|..|AuthText(b)| - 1] == b;
  }

  // ----- What stands in the way of a client's file -----

  /** The record is well formed and no directory or special file has its name. */
  predicate Replaceable(dir: Listing, id: string, key: string) {
    ValidId(id) && ValidKey(key) && (FileName(id) in dir ==> dir[FileName(id)].Regular?)
  }

  predicate AllReplaceable(dir: Listing, clients: map<string, string>) {
    forall id | id in clients :: Replaceable(dir, id, clients[id])
  }

  /** Whatever is not a regular file was there before. */
  predicate AddsRegular(before: Listing, after: Listing) {
    forall name | name in after && !after[name].Regular? :: name in before && before[name] == after[name]
  }

  lemma AddsRegularTwice(a: Listing, b: Listing, c: Listing)
    requires AddsRegular(a, b) && AddsRegular(b, c)
    ensures AddsRegular(a, c)
  {
  }

  /** At no point of the journal after `start` does an expected client that had an entry lack one. */
  ghost predicate NeverLocksOut(journal: seq<Listing>, start: nat, before: Listing, expected: map<string, string>) {
    forall k, id | start <= k < |journal| && id in expected && FileName(id) in before :: FileName(id) in journal[k]
  }

  lemma NeverLocksOutTwice(first: seq<Listing>, all: seq<Listing>, start: nat, before: Listing, mid: Listing,
                           expected: map<string, string>)
    requires start <= |first| <= |all| && all[..|first|] == first && before.Keys <= mid.Keys
    requires NeverLocksOut(first, start, before, expected) && NeverLocksOut(all, |first|, mid, expected)
    ensures NeverLocksOut(all, start, before, expected)
  {
    forall k, id | start <= k < |all| && id in expected && FileName(id) in before ensures FileName(id) in all[k] {
      if k < |first| { assert all[k] == first[k]; }
    }
  }

  class AuthDir {
    var entries: Listing
    /** Every listing the directory has had, in order. */
    ghost var journal: seq<Listing>

    constructor (entries: Listing)
      ensures this.entries == entries && journal == [entries]
    {
      this.entries, journal := entries, [entries];
    }

    /** Replaces the file atomically. It refuses malformed records and to replace anything
        but a regular file. */
    method WriteAuthorization(id: string, key: string, fate: Fate) returns (ok: bool)
      modifies this
      ensures ok <==> fate.Fine? && Replaceable(old(entries), id, key)
      ensures entries == if !fate.Fails? && Replaceable(old(entries), id, key)
                         then old(entries)[FileName(id) := Regular(AuthText(key))] else old(entries)
      ensures journal == old(journal) || journal == old(journal) + [entries]
      ensures entries != old(entries) ==> journal == old(journal) + [entries]
    {
      if !ValidId(id) || !ValidKey(key) { return false; }
      if FileName(id) in entries && !entries[FileName(id)].Regular? { return false; }
      if fate.Fails? { return false; }
      entries := entries[FileName(id) := Regular(AuthText(key))];
      journal := journal + [entries];
      ok := fate.Fine?;
    }

    /** Removing a name that is not there succeeds. */
    method Remove(name: string, fine: bool) returns (ok: bool)
      modifies this
      ensures ok == fine
      ensures entries == if ok then old(entries) - {name} else old(entries)
      ensures journal == if ok then old(journal) + [entries] else old(journal)
    {
      ok := fine;
      if ok {
        entries := entries - {name};
        journal := journal + [entries];
      }
    }

    /** Writes the expected clients and removes the stale ones. Unless `fine`, some step fails. */
    method Reconcile(devices: seq<Device>, pending: Option<PendingDevice>, fine: bool) returns (ok: bool)
      modifies this
      ensures |old(journal)| <= |journal| && journal[..|old(journal)|] == old(journal)
      ensures ok <==> fine && AllReplaceable(old(entries), Expected(devices, pending))
      ensures ok ==> entries == Reconciled(old(entries), Expected(devices, pending))
      ensures AddsRegular(old(entries), entries)
      ensures NeverLocksOut(journal, |old(journal)|, old(entries), Expected(devices, pending))
    {
      var expected := ExpectedClients(devices, pending);
      ok := WriteExpected(expected, fine);
      if !ok { return; }
      ghost var written, first := entries, journal;
      ok := RemoveStale(expected, fine);
      NeverLocksOutTwice(first, journal, |old(journal)|, old(entries), written, expected);
      AddsRegularTwice(old(entries), written, entries);
    }

    /** The expected files are written, and only stale ones stand between this and the result. */
    method WriteExpected(expected: map<string, string>, fine: bool) returns (ok: bool)
      modifies this
      ensures |old(journal)| <= |journal| && journal[..|old(journal)|] == old(journal)
      ensures NeverLocksOut(journal, |old(journal)|, old(entries), expected)
      ensures fine ==> (ok <==> AllReplaceable(old(entries), expected))
      ensures ok ==> entries - StaleNames(entries, expected) == Reconciled(old(entries), expected)
      ensures ok ==> AllReplaceable(old(entries), expected) && old(entries).Keys <= entries.Keys
      ensures AddsRegular(old(entries), entries)
    {
      ok := WriteAll(expected, fine);
      if ok { OverlayWithoutStale(old(entries), expected); }
    }

    /** Writes every expected client's file; the directory only gains names. */
    method WriteAll(expected: map<string, string>, fine: bool) returns (ok: bool)
      modifies this
      ensures |old(journal)| <= |journal| && journal[..|old(journal)|] == old(journal)
      ensures forall k | |old(journal)| <= k < |journal| :: old(entries).Keys <= journal[k].Keys
      ensures fine ==> (ok <==> AllReplaceable(old(entries), expected))
      ensures ok ==> entries == Overlay(old(entries), expected, expected.Keys) && AllReplaceable(old(entries), expected)
      ensures AddsRegular(old(entries), entries)
    {
      var todo := expected.Keys;
      ghost var done: set<string> := {};
      while todo != {}
        invariant todo !! done && todo + done == expected.Keys
        invariant entries == Overlay(old(entries), expected, done)
        invariant |old(journal)| <= |journal| && journal[..|old(journal)|] == old(journal)
        invariant forall k | |old(journal)| <= k < |journal| :: old(entries).Keys <= journal[k].Keys
        invariant forall id | id in done :: Replaceable(old(entries), id, expected[id])
        decreases todo
      {
        var id :| id in todo;
        OverlayStep(old(entries), expected, done, id);
        OverlayRest(old(entries), expected, done, id);
        var fate: Fate := *;
        if fine { fate := Fine; }
        ok := WriteAuthorization(id, expected[id], fate);
        assert old(entries).Keys <= entries.Keys;
        OverlayRegular(old(entries), expected, done + {id});
        if !ok {
          OverlayRegular(old(entries), expected, done);
          return;
        }
        todo, done := todo - {id}, done + {id};
      }
      assert done == expected.Keys;
      OverlayRegular(old(entries), expected, done);
      ok := true;
    }

    /** Removes every stale client file of the listing read at the start. */
    method RemoveStale(expected: map<string, string>, fine: bool) returns (ok: bool)
      requires forall id | id in expected :: expected[id] != ""
      modifies this
      ensures |old(journal)| <= |journal| && journal[..|old(journal)|] == old(journal)
      ensures NeverLocksOut(journal, |old(journal)|, old(entries), expected)
      ensures ok == fine
      ensures ok ==> entries == old(entries) - StaleNames(old(entries), expected)
      ensures AddsRegular(old(entries), entries)
    {
      var listed := entries;
      var todo := listed.Keys;
      ghost var gone: set<string> := {};
      while todo != {}
        invariant todo <= listed.Keys && gone <= listed.Keys - todo
        invariant forall name | name in listed && name !in todo :: name in gone <==> Stale(listed, name, expected)
        invariant entries == listed - gone
        invariant |old(journal)| <= |journal| && journal[..|old(journal)|] == old(journal)
        invariant NeverLocksOut(journal, |old(journal)|, listed, expected)
        decreases todo
      {
        var name :| name in todo;
        var removable: bool := *;
        if IsAuthName(name) && !listed[name].Directory? && (if IdOf(name) in expected then expected[IdOf(name)] else "") == "" {
          ok := Remove(name, fine || removable);
          if !ok { return; }
          gone := gone + {name};
        }
        todo := todo - {name};
      }
      assert gone == StaleNames(listed, expected);
      ok := fine;                            // otherwise the listing or the last step failed
    }

    static method ExpectedClients(devices: seq<Device>, pending: Option<PendingDevice>) returns (expected: map<string, string>)
      ensures expected == Expected(devices, pending)
    {
      expected := map[];
      for i := 0 to |devices|
        invariant expected == DeviceKeys(devices[..i])
      {
        assert devices[..i + 1][..i] == devices[..i];
        expected := expected[devices[i].id := devices[i].publicKey];
      }
      assert devices[..|devices|] == devices;
      if pending.Some? {
        expected := expected[pending.value.device.id := pending.value.device.publicKey];
      }
    }
  }
}
