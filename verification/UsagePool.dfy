/**
 The reference-counted pool under every interleaving of LoadOrNew and Delete.

 A handle is one call of LoadOrNew together with the Delete that gives it back;
 clients delete only what they hold. Each critical section of the source is one
 step: the pool lock, the entry lock held while constructing, and the destructor
 call after the pool lock has been released.
 */
module UsagePool {
  import opened Options

  type Key = nat

  datatype Phase = Building | Built | Broken

  /** A pool value. `refs` is the count the source keeps. The last four fields record,
      for the proof only, which handles are behind it. */
  datatype Entry = Entry(
    key: Key,
    refs: int,
    phase: Phase,
    owner: Option<nat>,     // holds the entry's write lock
    users: set<nat>,        // build, wait for or hold the value
    destroyer: Option<nat>, // is about to call the destructor
    destructs: nat          // destructor calls so far
  )

  datatype Handle =
    | Constructing(id: nat) // inserted the entry, running the constructor
    | Failing(id: nat)      // the constructor failed, about to remove the entry
    | Removed(id: nat)      // removed the entry, about to release its lock
    | Waiting(id: nat)      // counted, waiting for the entry's lock
    | Holding(id: nat)
    | Destroying(id: nat)   // took the last reference, about to destruct
    | Over

  datatype Pool = Pool(pool: map<Key, nat>, entries: map<nat, Entry>, handles: map<nat, Handle>)

  datatype Event =
    | Load(h: nat, key: Key, newId: nat)
    | Construct(h: nat, ok: bool)
    | RemoveFailed(h: nat)
    | Release(h: nat)
    | Loaded(h: nat)
    | Delete(h: nat)
    | Destruct(h: nat)

  const EMPTY := Pool(map[], map[], map[])

  predicate Enabled(s: Pool, e: Event) {
    if e.Load? then
      e.h !in s.handles && e.newId !in s.entries
    else
      && e.h in s.handles && !s.handles[e.h].Over? && s.handles[e.h].id in s.entries
      && match e
         case Construct(h, _) => s.handles[h].Constructing?
         case RemoveFailed(h) => s.handles[h].Failing?
         case Release(h) => s.handles[h].Removed?
         case Loaded(h) => s.handles[h].Waiting? && s.entries[s.handles[h].id].owner.None?
         case Delete(h) => s.handles[h].Holding?
         case Destruct(h) => s.handles[h].Destroying? && s.entries[s.handles[h].id].owner.None?
  }

  function Put(s: Pool, h: nat, to: Handle, id: nat, entry: Entry): Pool {
    s.(handles := s.handles[h := to], entries := s.entries[id := entry])
  }

  function LoadStep(s: Pool, h: nat, key: Key, newId: nat): Pool {
    if key in s.pool && s.pool[key] in s.entries then
      var id := s.pool[key];
      var entry := s.entries[id];
      Put(s, h, Waiting(id), id, entry.(refs := entry.refs + 1, users := entry.users + {h}))
    else
      Put(s, h, Constructing(newId), newId, Entry(key, 1, Building, Some(h), {h}, None, 0)).(pool := s.pool[key := newId])
  }

  /** Delete looks the key up in the pool, whatever entry is found there. */
  function DeleteStep(s: Pool, h: nat, key: Key): Pool {
    if key !in s.pool || s.pool[key] !in s.entries then
      s.(handles := s.handles[h := Over])
    else
      var id := s.pool[key];
      var entry := s.entries[id].(refs := s.entries[id].refs - 1, users := s.entries[id].users - {h});
      if entry.refs == 0 then
        Put(s, h, Destroying(id), id, entry.(destroyer := Some(h))).(pool := s.pool - {key})
      else
        Put(s, h, Over, id, entry)
  }

  function Apply(s: Pool, e: Event): Pool
    requires Enabled(s, e)
  {
    match e
    case Load(h, key, newId) => LoadStep(s, h, key, newId)
    case Construct(h, ok) =>
      var id := s.handles[h].id;
      if ok then Put(s, h, Holding(id), id, s.entries[id].(phase := Built, owner := None))
      else Put(s, h, Failing(id), id, s.entries[id].(phase := Broken))
    case RemoveFailed(h) =>
      var id := s.handles[h].id;
      var entry := s.entries[id];
      Put(s, h, Removed(id), id, entry.(users := entry.users - {h})).(pool := s.pool - {entry.key})
    case Release(h) =>
      var id := s.handles[h].id;
      Put(s, h, Over, id, s.entries[id].(owner := None))
    case Loaded(h) =>
      var id := s.handles[h].id;
      var entry := s.entries[id];
      if entry.phase.Built? then s.(handles := s.handles[h := Holding(id)])
      else Put(s, h, Over, id, entry.(users := entry.users - {h}))
    case Delete(h) => DeleteStep(s, h, s.entries[s.handles[h].id].key)
    case Destruct(h) =>
      var id := s.handles[h].id;
      Put(s, h, Over, id, s.entries[id].(destroyer := None, destructs := s.entries[id].destructs + 1))
  }

  // ----- Invariant -----

  /** The handle builds, waits for or holds entry `id`. */
  predicate Uses(h: Handle, id: nat) {
    h == Constructing(id) || h == Failing(id) || h == Waiting(id) || h == Holding(id)
  }

  predicate Locks(h: Handle, id: nat) {
    h == Constructing(id) || h == Failing(id) || h == Removed(id)
  }

  predicate InPool(s: Pool, id: nat) {
    id in s.entries && s.entries[id].key in s.pool && s.pool[s.entries[id].key] == id
  }

  predicate PoolOk(s: Pool, key: Key) {
    key in s.pool ==> s.pool[key] in s.entries && s.entries[s.pool[key]].key == key
  }

  /** What a handle's program point says about its entry. */
  predicate HandleOk(s: Pool, h: nat) {
    h in s.handles && !s.handles[h].Over? ==>
      var at := s.handles[h];
      && at.id in s.entries
      && var entry := s.entries[at.id];
      && (Uses(at, at.id) ==> h in entry.users)
      && (Locks(at, at.id) ==> entry.owner == Some(h))
      && (at.Destroying? ==> entry.destroyer == Some(h))
      && (at.Constructing? ==> entry.phase.Building?)
      && (at.Failing? ==> entry.phase.Broken? && InPool(s, at.id))
      && (at.Removed? ==> entry.phase.Broken? && !InPool(s, at.id))
      && (at.Holding? ==> entry.phase.Built?)
  }

  /** What an entry's fields say about the handles, and how often it is destructed. */
  predicate EntryOk(s: Pool, id: nat) {
    id in s.entries ==>
      var entry := s.entries[id];
      && (forall h | h in entry.users :: h in s.handles && Uses(s.handles[h], id))
      && (entry.owner.Some? ==> entry.owner.value in s.handles && Locks(s.handles[entry.owner.value], id))
      && (entry.destroyer.Some? ==> entry.destroyer.value in s.handles && s.handles[entry.destroyer.value] == Destroying(id))
      && (InPool(s, id) ==> entry.refs == |entry.users| >= 1)
      && (InPool(s, id) || entry.phase.Building? ==> entry.phase.Built? || entry.owner.Some?)
      && (entry.phase.Building? ==> InPool(s, id))
      && (entry.phase.Built? ==> entry.owner.None?)
      && (entry.phase.Built? && !InPool(s, id) ==> entry.users == {})
      && entry.destructs + (if entry.destroyer.Some? then 1 else 0) == (if entry.phase.Built? && !InPool(s, id) then 1 else 0)
  }

  ghost predicate Inv(s: Pool) {
    && (forall key :: PoolOk(s, key))
    && (forall h :: HandleOk(s, h))
    && (forall id :: EntryOk(s, id))
  }

  /** A handle in the pool's books is where it says it is: the facts every step needs. */
  lemma StepInv(s: Pool, e: Event)
    requires Inv(s) && Enabled(s, e)
    ensures Inv(Apply(s, e))
  {
    var s' := Apply(s, e);
    forall key ensures PoolOk(s', key) { StepPool(s, e, key); }
    forall h ensures HandleOk(s', h) { StepHandle(s, e, h); }
    forall id ensures EntryOk(s', id) { StepEntry(s, e, id); }
  }

  lemma StepPool(s: Pool, e: Event, key: Key)
    requires Inv(s) && Enabled(s, e)
    ensures PoolOk(Apply(s, e), key)
  {
    assert PoolOk(s, key);
  }

  lemma PoolStepHandle(s: Pool, e: Event, h: nat)
    requires Inv(s) && Enabled(s, e) && (e.Load? || e.Delete? || e.RemoveFailed?)
    ensures HandleOk(Apply(s, e), h)
  {
    assert HandleOk(s, h);
    assert HandleOk(s, e.h);
    if h in s.handles && !s.handles[h].Over? { assert EntryOk(s, s.handles[h].id); }
    if !e.Load? { assert EntryOk(s, s.handles[e.h].id); }
  }

  lemma StepHandle(s: Pool, e: Event, h: nat)
    requires Inv(s) && Enabled(s, e)
    ensures HandleOk(Apply(s, e), h)
  {
    if e.Load? || e.Delete? || e.RemoveFailed? {
      PoolStepHandle(s, e, h);
    } else {
      assert HandleOk(s, h);
      assert HandleOk(s, e.h);
      assert EntryOk(s, s.handles[e.h].id);
    }
  }

  lemma DeleteEntry(s: Pool, h: nat, id: nat)
    requires Inv(s) && Enabled(s, Delete(h))
    ensures EntryOk(Apply(s, Delete(h)), id)
  {
    assert EntryOk(s, id);
    assert HandleOk(s, h);
    var held := s.handles[h].id;
    assert EntryOk(s, held);
    var users := s.entries[held].users;
    assert users == users - {h} + {h};
  }

  lemma LoadEntry(s: Pool, e: Event, id: nat)
    requires Inv(s) && Enabled(s, e) && e.Load?
    ensures EntryOk(Apply(s, e), id)
  {
    assert EntryOk(s, id);
    assert HandleOk(s, e.h);
    assert PoolOk(s, e.key);
  }

  lemma BuildEntry(s: Pool, e: Event, id: nat)
    requires Inv(s) && Enabled(s, e) && (e.Construct? || e.RemoveFailed?)
    ensures EntryOk(Apply(s, e), id)
  {
    assert EntryOk(s, id);
    assert HandleOk(s, e.h);
    assert EntryOk(s, s.handles[e.h].id);
  }

  lemma StepEntry(s: Pool, e: Event, id: nat)
    requires Inv(s) && Enabled(s, e)
    ensures EntryOk(Apply(s, e), id)
  {
    if e.Delete? {
      DeleteEntry(s, e.h, id);
    } else if e.Load? {
      LoadEntry(s, e, id);
    } else if e.Construct? || e.RemoveFailed? {
      BuildEntry(s, e, id);
    } else {
      assert EntryOk(s, id);
      assert HandleOk(s, e.h);
      assert EntryOk(s, s.handles[e.h].id);
    }
  }

  // ----- Every run -----

  predicate IsRun(s: Pool, es: seq<Event>)
    decreases |es|
  {
    es == [] || (Enabled(s, es[0]) && IsRun(Apply(s, es[0]), es[1..]))
  }

  function End(s: Pool, es: seq<Event>): Pool
    requires IsRun(s, es)
    decreases |es|
  {
    if es == [] then s else End(Apply(s, es[0]), es[1..])
  }

  lemma {:induction false} RunInv(s: Pool, es: seq<Event>)
    requires Inv(s) && IsRun(s, es)
    ensures Inv(End(s, es))
    decreases |es|
  {
    if es != [] {
      StepInv(s, es[0]);
      RunInv(Apply(s, es[0]), es[1..]);
    }
  }

  lemma ReachableInv(es: seq<Event>)
    requires IsRun(EMPTY, es)
    ensures Inv(End(EMPTY, es))
  {
    RunInv(EMPTY, es);
  }

  /** The handles that build, wait for or hold an entry. */
  function Users(s: Pool, id: nat): set<nat> {
    set h | h in s.handles && Uses(s.handles[h], id)
  }

  /** The count of a pooled entry is exactly the handles that hold it, wait for it or
      are building it, so it is never zero or negative there. */
  lemma CountIsUsers(es: seq<Event>, key: Key)
    requires IsRun(EMPTY, es)
    ensures var s := End(EMPTY, es);
            key in s.pool ==>
              && s.pool[key] in s.entries
              && s.entries[s.pool[key]].refs == |Users(s, s.pool[key])| >= 1
  {
    ReachableInv(es);
    var s := End(EMPTY, es);
    if key in s.pool {
      assert PoolOk(s, key);
      var id := s.pool[key];
      assert EntryOk(s, id);
      forall h | h in s.handles && Uses(s.handles[h], id) ensures h in s.entries[id].users {
        assert HandleOk(s, h);
      }
      assert Users(s, id) == s.entries[id].users;
    }
  }

  /** Whoever holds a value finds it under its key: Delete never misses its entry, never
      takes the count below zero, and only the last user takes the entry out. */
  lemma DeleteFindsItsEntry(es: seq<Event>, h: nat)
    requires IsRun(EMPTY, es) && Enabled(End(EMPTY, es), Delete(h))
    ensures var s := End(EMPTY, es);
            var id := s.handles[h].id;
            var s' := Apply(s, Delete(h));
            && InPool(s, id)
            && id in s'.entries && s'.entries[id].refs == s.entries[id].refs - 1 >= 0
            && (s'.handles[h] == Destroying(id) <==> Users(s, id) == {h})
            && (InPool(s', id) <==> Users(s, id) != {h})
  {
    ReachableInv(es);
    var s := End(EMPTY, es);
    assert HandleOk(s, h);
    var id := s.handles[h].id;
    assert EntryOk(s, id);
    CountIsUsers(es, s.entries[id].key);
    assert h in Users(s, id);
    assert Users(s, id) == Users(s, id) - {h} + {h};
  }

  /** The destructor runs for a built value that nobody holds, waits for or can find, and
      that has not been destructed before. */
  lemma DestructIsSafe(es: seq<Event>, h: nat)
    requires IsRun(EMPTY, es) && Enabled(End(EMPTY, es), Destruct(h))
    ensures var s := End(EMPTY, es);
            var id := s.handles[h].id;
            && s.entries[id].phase.Built? && s.entries[id].destructs == 0
            && Users(s, id) == {} && !InPool(s, id)
  {
    ReachableInv(es);
    var s := End(EMPTY, es);
    assert HandleOk(s, h);
    var id := s.handles[h].id;
    assert EntryOk(s, id);
    forall k ensures k !in Users(s, id) {
      assert HandleOk(s, k);
    }
    assert Users(s, id) == {};
  }

  /** A failing constructor takes its own entry out of the pool and no other. */
  lemma FailureRemovesOwnEntry(es: seq<Event>, h: nat)
    requires IsRun(EMPTY, es) && Enabled(End(EMPTY, es), RemoveFailed(h))
    ensures var s := End(EMPTY, es);
            var id := s.handles[h].id;
            && s.entries[id].key in s.pool && s.pool[s.entries[id].key] == id
            && Apply(s, RemoveFailed(h)).pool == s.pool - {s.entries[id].key}
  {
    ReachableInv(es);
    assert HandleOk(End(EMPTY, es), h);
  }

  lemma PooledHasUser(s: Pool, key: Key)
    requires Inv(s)
    ensures key in s.pool ==> exists h :: h in s.handles && !s.handles[h].Over?
  {
    if key in s.pool {
      assert PoolOk(s, key);
      assert EntryOk(s, s.pool[key]);
      var h :| h in s.entries[s.pool[key]].users;
    }
  }

  /** Once every call has returned and every hold was given back, the pool is empty, each
      value that was built has been destructed exactly once and no other has. */
  lemma AllReturnedMeansDestructedOnce(es: seq<Event>)
    requires IsRun(EMPTY, es)
    requires forall h | h in End(EMPTY, es).handles :: End(EMPTY, es).handles[h].Over?
    ensures var s := End(EMPTY, es);
            && s.pool == map[]
            && forall id | id in s.entries :: s.entries[id].destructs == (if s.entries[id].phase.Built? then 1 else 0)
  {
    ReachableInv(es);
    var s := End(EMPTY, es);
    forall key ensures key !in s.pool {
      PooledHasUser(s, key);
    }
    assert s.pool.Keys == {};
    forall id | id in s.entries
      ensures s.entries[id].destructs == (if s.entries[id].phase.Built? then 1 else 0)
    {
      assert EntryOk(s, id);
    }
  }

  // ----- Progress -----

  /** What a handle does next, left to itself. */
  function Next(h: nat, at: Handle): Event
    requires !at.Over?
  {
    match at
    case Constructing(_) => Construct(h, true)
    case Failing(_) => RemoveFailed(h)
    case Removed(_) => Release(h)
    case Waiting(_) => Loaded(h)
    case Holding(_) => Delete(h)
    case Destroying(_) => Destruct(h)
  }

  function StepsLeft(at: Handle): nat {
    match at
    case Waiting(_) => 3
    case Constructing(_) => 3
    case Holding(_) => 2
    case Failing(_) => 2
    case Removed(_) => 1
    case Destroying(_) => 1
    case Over => 0
  }

  /** The handle waits for the lock that another one has. */
  predicate Blocked(s: Pool, h: nat) {
    && h in s.handles && s.handles[h].Waiting? && s.handles[h].id in s.entries
    && s.entries[s.handles[h].id].owner.Some?
  }

  /** A handle that is not blocked can take its next step, and only it moves. A waiter comes to
      hold a value that was built, and gives up one that was not; whoever blocks a waiter has
      the lock and is itself not blocked. */
  lemma HandleMoves(s: Pool, h: nat)
    requires Inv(s) && h in s.handles && !s.handles[h].Over?
    ensures !Blocked(s, h) ==>
              var e := Next(h, s.handles[h]);
              && Enabled(s, e)
              && var at := Apply(s, e).handles;
                 h in at && at == s.handles[h := at[h]] && StepsLeft(at[h]) < StepsLeft(s.handles[h])
    ensures s.handles[h].Waiting? && !Blocked(s, h) ==>
              var id := s.handles[h].id;
              Apply(s, Loaded(h)).handles[h] == if s.entries[id].phase.Built? then Holding(id) else Over
    ensures s.handles[h].Waiting? && s.handles[h].id in s.entries && s.entries[s.handles[h].id].phase.Built? ==> !Blocked(s, h)
    ensures Blocked(s, h) ==>
              var o := s.entries[s.handles[h].id].owner.value;
              o in s.handles && o != h && Locks(s.handles[o], s.handles[h].id) && !Blocked(s, o)
  {
    assert HandleOk(s, h);
    assert EntryOk(s, s.handles[h].id);
  }

  /** The handles that have not returned. */
  function Unfinished(s: Pool): set<nat> {
    set h | h in s.handles && !s.handles[h].Over?
  }

  lemma {:induction false} HandleReturns(s: Pool, h: nat) returns (es: seq<Event>)
    requires Inv(s) && h in s.handles && !Blocked(s, h)
    ensures IsRun(s, es) && Inv(End(s, es)) && End(s, es).handles == s.handles[h := Over]
    decreases StepsLeft(s.handles[h])
  {
    es := [];
    if !s.handles[h].Over? {
      HandleMoves(s, h);
      var e := Next(h, s.handles[h]);
      StepInv(s, e);
      var s' := Apply(s, e);
      assert !Blocked(s', h);
      var rest := HandleReturns(s', h);
      es := [e] + rest;
      assert es[1..] == rest;
    }
  }

  lemma {:induction false} RunTwice(s: Pool, a: seq<Event>, b: seq<Event>)
    requires IsRun(s, a) && IsRun(End(s, a), b)
    ensures IsRun(s, a + b) && End(s, a + b) == End(End(s, a), b)
    decreases |a|
  {
    if a == [] {
      assert a + b == b;
    } else {
      RunTwice(Apply(s, a[0]), a[1..], b);
      assert (a + b)[1..] == a[1..] + b;
    }
  }

  /** No deadlock: from every reachable state all calls can return and everything held can be
      given back, and then the pool is empty and every value that was built is destructed once. */
  lemma {:induction false} EveryoneCanReturn(s: Pool) returns (es: seq<Event>)
    requires Inv(s)
    ensures IsRun(s, es) && Unfinished(End(s, es)) == {}
    decreases |Unfinished(s)|
  {
    es := [];
    if Unfinished(s) != {} {
      var h :| h in Unfinished(s);
      HandleMoves(s, h);
      if Blocked(s, h) { h := s.entries[s.handles[h].id].owner.value; }
      es := HandleReturns(s, h);
      var s' := End(s, es);
      assert h in Unfinished(s) && Unfinished(s') == Unfinished(s) - {h};
      var rest := EveryoneCanReturn(s');
      RunTwice(s, es, rest);
      es := es + rest;
    }
  }

  lemma PoolCanBeEmptied(es: seq<Event>) returns (more: seq<Event>)
    requires IsRun(EMPTY, es)
    ensures IsRun(EMPTY, es + more)
    ensures var s := End(EMPTY, es + more);
            s.pool == map[] && forall id | id in s.entries :: s.entries[id].destructs == (if s.entries[id].phase.Built? then 1 else 0)
  {
    ReachableInv(es);
    more := EveryoneCanReturn(End(EMPTY, es));
    RunTwice(EMPTY, es, more);
    var s := End(EMPTY, es + more);
    forall h | h in s.handles ensures s.handles[h].Over? { assert h !in Unfinished(s); }
    AllReturnedMeansDestructedOnce(es + more);
  }
}
