/** Local administration sessions with a sliding idle timeout and an absolute one. */
module Sessions {
  import opened Options
  import opened Model

  const MINUTE := 60 * 1_000_000_000
  const IDLE := 30 * MINUTE
  const ABSOLUTE := 12 * 60 * MINUTE

  /** The session may still be used. */
  predicate Fresh(s: LocalSession, now: Time) {
    now < s.expiresAt && now - s.lastUseAt <= IDLE
  }

  /** A history of uses, the first being the creation: no gap over half an hour, and no
      use twelve hours or more after the creation. */
  predicate Chain(uses: seq<Time>) {
    && uses != []
    && (forall i | 0 <= i < |uses| - 1 :: uses[i + 1] - uses[i] <= IDLE)
    && (forall i | 0 <= i < |uses| :: uses[i] < uses[0] + ABSOLUTE)
  }

  lemma ChainAppend(uses: seq<Time>, now: Time)
    requires Chain(uses) && now - uses[|uses| - 1] <= IDLE && now < uses[0] + ABSOLUTE
    ensures Chain(uses + [now])
  {
    var u := uses + [now];
    assert forall i | 0 <= i < |uses| :: u[i] == uses[i];
  }

  /** A session is the end of the history of uses of its cookie. */
  ghost predicate Recorded(s: LocalSession, uses: map<string, seq<Time>>) {
    && s.tokenHash in uses && Chain(uses[s.tokenHash])
    && uses[s.tokenHash][0] == s.createdAt
    && uses[s.tokenHash][|uses[s.tokenHash]| - 1] == s.lastUseAt
    && s.expiresAt == s.createdAt + ABSOLUTE
  }

  ghost predicate AllRecorded(ss: seq<LocalSession>, uses: map<string, seq<Time>>) {
    forall i | 0 <= i < |ss| :: Recorded(ss[i], uses)
  }

  ghost predicate DistinctHashes(ss: seq<LocalSession>) {
    forall i, j | 0 <= i < j < |ss| :: ss[i].tokenHash != ss[j].tokenHash
  }

  predicate Holds(ss: seq<LocalSession>, hash: string) {
    exists i :: 0 <= i < |ss| && ss[i].tokenHash == hash
  }

  /** Why a session stays: it may still be used, or it is not the one revoked. */
  datatype Keep = FreshAt(now: Time) | OtherThan(id: string)

  predicate Stays(k: Keep, s: LocalSession) {
    if k.FreshAt? then Fresh(s, k.now) else s.id != k.id
  }

  /** The sessions that stay, in order. */
  function Filter(ss: seq<LocalSession>, k: Keep): (r: seq<LocalSession>)
    ensures |r| <= |ss|
  {
    if ss == [] then []
    else
      var last := ss[|ss| - 1];
      Filter(ss[..|ss| - 1], k) + (if Stays(k, last) then [last] else [])
  }

  lemma {:induction false} FilterMembers(ss: seq<LocalSession>, k: Keep, s: LocalSession)
    ensures s in Filter(ss, k) <==> s in ss && Stays(k, s)
  {
    if ss != [] {
      FilterMembers(ss[..|ss| - 1], k, s);
      assert ss == ss[..|ss| - 1] + [ss[|ss| - 1]];
    }
  }

  /** What every stored list of sessions satisfies. */
  ghost predicate Good(ss: seq<LocalSession>, uses: map<string, seq<Time>>) {
    SessionsValid(ss) && DistinctHashes(ss) && AllRecorded(ss, uses)
  }

  lemma GoodAppend(ss: seq<LocalSession>, s: LocalSession, uses: map<string, seq<Time>>)
    requires Good(ss, uses) && ValidSession(s) && Recorded(s, uses)
    requires forall i | 0 <= i < |ss| :: ss[i].id != s.id && ss[i].tokenHash != s.tokenHash
    ensures Good(ss + [s], uses)
  {
  }

  lemma GoodPart(ss: seq<LocalSession>, lo: nat, hi: nat, uses: map<string, seq<Time>>)
    requires Good(ss, uses) && lo <= hi <= |ss|
    ensures Good(ss[lo..hi], uses)
  {
  }

  /** Filtering keeps validity, distinct cookies and histories. */
  lemma {:induction false} FilterKeeps(ss: seq<LocalSession>, k: Keep, uses: map<string, seq<Time>>)
    requires Good(ss, uses)
    ensures Good(Filter(ss, k), uses)
  {
    if ss != [] {
      var front, last := ss[..|ss| - 1], ss[|ss| - 1];
      GoodPart(ss, 0, |ss| - 1, uses);
      FilterKeeps(front, k, uses);
      var r := Filter(front, k);
      forall i | 0 <= i < |r| ensures r[i].id != last.id && r[i].tokenHash != last.tokenHash {
        FilterMembers(front, k, r[i]);
        var j :| 0 <= j < |front| && front[j] == r[i];
        assert ss[j] == r[i];
      }
      if Stays(k, last) { GoodAppend(r, last, uses); }
    }
  }

  lemma FilterAll(ss: seq<LocalSession>, k: Keep)
    ensures forall s | s in Filter(ss, k) :: s in ss && Stays(k, s)
  {
    forall s | s in Filter(ss, k) ensures s in ss && Stays(k, s) {
      FilterMembers(ss, k, s);
    }
  }

  /** Every cookie of `part` is a cookie of `ss`. */
  ghost predicate NoNewCookies(part: seq<LocalSession>, ss: seq<LocalSession>) {
    forall h | Holds(part, h) :: Holds(ss, h)
  }

  lemma MembersHold(part: seq<LocalSession>, ss: seq<LocalSession>)
    requires forall s | s in part :: s in ss
    ensures NoNewCookies(part, ss)
  {
    forall h | Holds(part, h) ensures Holds(ss, h) {
      var i :| 0 <= i < |part| && part[i].tokenHash == h;
      assert part[i] in ss;
      var j :| 0 <= j < |ss| && ss[j] == part[i];
    }
  }

  /** Adding the session of a fresh cookie. */
  lemma GoodIssue(ss: seq<LocalSession>, s: LocalSession, uses: map<string, seq<Time>>)
    requires Good(ss, uses) && ValidSession(s) && s.tokenHash !in uses
    requires s.lastUseAt == s.createdAt && s.expiresAt == s.createdAt + ABSOLUTE
    requires forall i | 0 <= i < |ss| :: ss[i].id != s.id
    ensures Good(ss + [s], uses[s.tokenHash := [s.createdAt]])
  {
    var uses' := uses[s.tokenHash := [s.createdAt]];
    forall i | 0 <= i < |ss| ensures Recorded(ss[i], uses') && ss[i].tokenHash != s.tokenHash {
      assert Recorded(ss[i], uses);
    }
    assert Chain(uses'[s.tokenHash]);
    GoodAppend(ss, s, uses');
  }

  /** Using session `i` extends the chain of its cookie. */
  lemma GoodUse(ss: seq<LocalSession>, i: nat, now: Time, uses: map<string, seq<Time>>)
    requires Good(ss, uses) && i < |ss| && Fresh(ss[i], now) && now >= ss[i].createdAt
    ensures var h := ss[i].tokenHash;
            && h in uses
            && Chain(uses[h] + [now])
            && Good(ss[i := ss[i].(lastUseAt := now)], uses[h := uses[h] + [now]])
  {
    var s := ss[i];
    var h := s.tokenHash;
    assert Recorded(s, uses);
    ChainAppend(uses[h], now);
    var uses', ss' := uses[h := uses[h] + [now]], ss[i := s.(lastUseAt := now)];
    forall j | 0 <= j < |ss'| ensures Recorded(ss'[j], uses') {
      assert Recorded(ss[j], uses);
    }
  }

  /** The cookie's session is stored and may be used now. */
  predicate Usable(ss: seq<LocalSession>, hash: string, now: Time) {
    exists s :: s in ss && s.tokenHash == hash && Fresh(s, now) && now >= s.createdAt
  }

  /** A stored session may be used exactly if that continues the chain of its cookie's uses. */
  lemma FreshIsChain(s: LocalSession, uses: map<string, seq<Time>>, now: Time)
    requires Recorded(s, uses)
    ensures Fresh(s, now) <==> Chain(uses[s.tokenHash] + [now])
  {
    var u := uses[s.tokenHash];
    if Fresh(s, now) { ChainAppend(u, now); }
    if Chain(u + [now]) { assert (u + [now])[|u| - 1] == s.lastUseAt && (u + [now])[|u|] == now && (u + [now])[0] == u[0]; }
  }

  lemma UsableIsChain(ss: seq<LocalSession>, uses: map<string, seq<Time>>, hash: string, now: Time)
    requires Good(ss, uses)
    ensures Holds(ss, hash) ==> hash in uses
    ensures Usable(ss, hash, now) <==> Holds(ss, hash) && Chain(uses[hash] + [now]) && uses[hash][0] <= now
  {
    if Holds(ss, hash) {
      var i :| 0 <= i < |ss| && ss[i].tokenHash == hash;
      assert Recorded(ss[i], uses);
      FreshIsChain(ss[i], uses, now);
      UsableAt(ss, i, now);
    }
  }

  lemma UsableIsKept(ss: seq<LocalSession>, hash: string, now: Time)
    ensures Usable(ss, hash, now) <==> Usable(Filter(ss, FreshAt(now)), hash, now)
  {
    forall s ensures s in Filter(ss, FreshAt(now)) <==> s in ss && Fresh(s, now) {
      FilterMembers(ss, FreshAt(now), s);
    }
  }

  lemma UsableAt(ss: seq<LocalSession>, i: nat, now: Time)
    requires DistinctHashes(ss) && i < |ss|
    ensures Usable(ss, ss[i].tokenHash, now) <==> Fresh(ss[i], now) && now >= ss[i].createdAt
  {
    if Usable(ss, ss[i].tokenHash, now) {
      var s :| s in ss && s.tokenHash == ss[i].tokenHash && Fresh(s, now) && now >= s.createdAt;
      var j :| 0 <= j < |ss| && ss[j] == s;
      assert i == j;
    }
  }

  /** The list with room for one more: without stale sessions, or without the oldest. */
  function MakeRoom(ss: seq<LocalSession>, now: Time): seq<LocalSession> {
    var kept := Filter(ss, FreshAt(now));
    if |kept| >= MAX_SESSIONS then kept[1..] else kept
  }

  lemma MakeRoomKeeps(ss: seq<LocalSession>, now: Time, uses: map<string, seq<Time>>)
    requires Good(ss, uses) && |ss| <= MAX_SESSIONS
    ensures Good(MakeRoom(ss, now), uses) && |MakeRoom(ss, now)| < MAX_SESSIONS
    ensures forall s | s in MakeRoom(ss, now) :: s in ss && Fresh(s, now)
    ensures NoNewCookies(MakeRoom(ss, now), ss)
  {
    var kept := Filter(ss, FreshAt(now));
    FilterKeeps(ss, FreshAt(now), uses);
    FilterAll(ss, FreshAt(now));
    if |kept| >= MAX_SESSIONS { GoodPart(kept, 1, |kept|, uses); }
    MembersHold(MakeRoom(ss, now), ss);
  }

  /** Of the stored sessions those that may be used stay, from the one at `first` on. */
  ghost predicate KeptFrom(ss: seq<LocalSession>, uses: map<string, seq<Time>>, now: Time, first: nat, next: seq<LocalSession>)
  {
    forall i | 0 <= i < |ss| ::
      ss[i].tokenHash in uses && (Holds(next, ss[i].tokenHash) <==> first <= i && Chain(uses[ss[i].tokenHash] + [now]))
  }

  /** Only the oldest one that may be used makes room, and only if the list is full. */
  ghost predicate OldestMadeRoom(ss: seq<LocalSession>, uses: map<string, seq<Time>>, now: Time, first: nat, next: seq<LocalSession>)
  {
    && KeptFrom(ss, uses, now, first, next)
    && (first > 0 ==> |next| == MAX_SESSIONS && first <= |ss|)
    && (forall i | 0 <= i < |ss| && i + 1 < first ::
          ss[i].tokenHash in uses && !Chain(uses[ss[i].tokenHash] + [now]))
  }

  lemma {:induction false} FilterFirst(ss: seq<LocalSession>, k: Keep) returns (f: nat)
    requires Filter(ss, k) != []
    ensures f < |ss| && ss[f] == Filter(ss, k)[0] && Stays(k, ss[f]) && forall i | 0 <= i < f :: !Stays(k, ss[i])
  {
    var front := ss[..|ss| - 1];
    if Filter(front, k) != [] {
      f := FilterFirst(front, k);
    } else {
      f := |ss| - 1;
      forall i | 0 <= i < f ensures !Stays(k, ss[i]) { FilterMembers(front, k, front[i]); }
    }
  }

  lemma HoldsIsIn(part: seq<LocalSession>, ss: seq<LocalSession>, i: nat)
    requires DistinctHashes(ss) && i < |ss| && forall s | s in part :: s in ss
    ensures Holds(part, ss[i].tokenHash) <==> ss[i] in part
  {
    if Holds(part, ss[i].tokenHash) {
      var k :| 0 <= k < |part| && part[k].tokenHash == ss[i].tokenHash;
      assert part[k] in ss;
      var j :| 0 <= j < |ss| && ss[j] == part[k];
      assert i == j;
    }
  }

  lemma HoldsMore(ss: seq<LocalSession>, s: LocalSession, h: string)
    ensures Holds(ss + [s], h) <==> Holds(ss, h) || h == s.tokenHash
  {
    HoldsAppend(ss, s);
    if Holds(ss, h) {
      var i :| 0 <= i < |ss| && ss[i].tokenHash == h;
      assert (ss + [s])[i].tokenHash == h;
    }
  }

  /** Where the kept sessions begin. */
  ghost predicate FirstKept(ss: seq<LocalSession>, now: Time, first: nat) {
    var kept := Filter(ss, FreshAt(now));
    if |kept| >= MAX_SESSIONS
    then 0 < first <= |ss| && ss[first - 1] == kept[0] && forall j | 0 <= j < first - 1 :: !Fresh(ss[j], now)
    else first == 0
  }

  lemma RoomAt(ss: seq<LocalSession>, now: Time, uses: map<string, seq<Time>>, s: LocalSession, first: nat, i: nat)
    requires Good(ss, uses) && |ss| <= MAX_SESSIONS && s.tokenHash !in uses && FirstKept(ss, now, first) && i < |ss|
    ensures ss[i].tokenHash in uses && (i + 1 < first ==> !Chain(uses[ss[i].tokenHash] + [now]))
    ensures Holds(MakeRoom(ss, now) + [s], ss[i].tokenHash) <==> first <= i && Chain(uses[ss[i].tokenHash] + [now])
  {
    assert Recorded(ss[i], uses);
    assert i + 1 < first ==> !Fresh(ss[i], now);
    hide Chain, Fresh, MakeRoom, Filter, Holds, Recorded, FirstKept;
    FreshIsChain(ss[i], uses, now);
    FilterKeeps(ss, FreshAt(now), uses);
    RoomMembers(ss, now, first, i);
    MakeRoomKeeps(ss, now, uses);
    HoldsMore(MakeRoom(ss, now), s, ss[i].tokenHash);
    HoldsIsIn(MakeRoom(ss, now), ss, i);
  }

  lemma RoomIsTheOldest(ss: seq<LocalSession>, now: Time, uses: map<string, seq<Time>>, s: LocalSession) returns (first: nat)
    requires Good(ss, uses) && |ss| <= MAX_SESSIONS && s.tokenHash !in uses
    ensures OldestMadeRoom(ss, uses, now, first, MakeRoom(ss, now) + [s])
  {
    first := 0;
    if |Filter(ss, FreshAt(now))| >= MAX_SESSIONS {
      var f := FilterFirst(ss, FreshAt(now));
      first := f + 1;
    }
    assert FirstKept(ss, now, first);
    assert first > 0 ==> |MakeRoom(ss, now)| + 1 == MAX_SESSIONS;
    hide Good, Chain, MakeRoom, Filter, Holds, FirstKept;
    forall i | 0 <= i < |ss|
      ensures ss[i].tokenHash in uses && (i + 1 < first ==> !Chain(uses[ss[i].tokenHash] + [now]))
      ensures Holds(MakeRoom(ss, now) + [s], ss[i].tokenHash) <==> first <= i && Chain(uses[ss[i].tokenHash] + [now])
    {
      RoomAt(ss, now, uses, s, first, i);
    }
  }

  lemma RoomMembers(ss: seq<LocalSession>, now: Time, first: nat, i: nat)
    requires DistinctHashes(ss) && DistinctHashes(Filter(ss, FreshAt(now))) && i < |ss|
    requires FirstKept(ss, now, first)
    ensures ss[i] in MakeRoom(ss, now) <==> first <= i && Fresh(ss[i], now)
  {
    hide DistinctHashes, Filter, Fresh;
    var kept := Filter(ss, FreshAt(now));
    FilterMembers(ss, FreshAt(now), ss[i]);
    if |kept| >= MAX_SESSIONS {
      Apart(ss, i, first - 1);
      RestMembers(kept, ss[i]);
    }
  }

  lemma Apart(ss: seq<LocalSession>, i: nat, j: nat)
    requires DistinctHashes(ss) && i < |ss| && j < |ss|
    ensures ss[i] == ss[j] <==> i == j
  {
  }

  lemma RestMembers(ss: seq<LocalSession>, s: LocalSession)
    requires DistinctHashes(ss) && ss != []
    ensures s in ss[1..] <==> s in ss && s != ss[0]
  {
    if s in ss[1..] {
      var j :| 0 < j < |ss| && ss[j] == s;
      Apart(ss, j, 0);
    }
    hide DistinctHashes;
    assert ss == [ss[0]] + ss[1..];
  }

  lemma HoldsAppend(ss: seq<LocalSession>, s: LocalSession)
    ensures Holds(ss + [s], s.tokenHash)
    ensures forall h | Holds(ss + [s], h) && h != s.tokenHash :: Holds(ss, h)
  {
    assert (ss + [s])[|ss|] == s;
    forall h | Holds(ss + [s], h) && h != s.tokenHash ensures Holds(ss, h) {
      var i :| 0 <= i < |ss| + 1 && (ss + [s])[i].tokenHash == h;
      assert ss[i].tokenHash == h;
    }
  }

  /** What making room and adding a new session come to. */
  lemma Issuing(ss: seq<LocalSession>, s: LocalSession, uses: map<string, seq<Time>>)
    requires Good(ss, uses) && |ss| <= MAX_SESSIONS && s.tokenHash !in uses
    requires s.lastUseAt == s.createdAt && s.expiresAt == s.createdAt + ABSOLUTE
    requires forall i | 0 <= i < |ss| :: ss[i].id != s.id
    ensures var next := MakeRoom(ss, s.createdAt) + [s];
            && |next| <= MAX_SESSIONS
            && (SessionsValid(next) <==> ValidSession(s))
            && (ValidSession(s) ==> Good(next, uses[s.tokenHash := [s.createdAt]]))
            && Holds(next, s.tokenHash) && (forall h | Holds(next, h) && h != s.tokenHash :: Holds(ss, h))
            && forall t | s.createdAt <= t <= s.createdAt + IDLE :: Usable(next, s.tokenHash, t)
  {
    var kept := MakeRoom(ss, s.createdAt);
    var next := kept + [s];
    MakeRoomKeeps(ss, s.createdAt, uses);
    HoldsAppend(kept, s);
    forall i | 0 <= i < |kept| ensures kept[i].id != s.id { assert kept[i] in ss; }
    hide MakeRoom, Recorded, Chain;
    assert next[|kept|] == s && s in next;
    if ValidSession(s) { GoodIssue(kept, s, uses); }
  }

  /** Apart from the cookie's own session, exactly the fresh ones are left. */
  ghost predicate SameOthers(part: seq<LocalSession>, ss: seq<LocalSession>, hash: string, now: Time) {
    forall s: LocalSession | s.tokenHash != hash :: s in part <==> s in ss && Fresh(s, now)
  }

  lemma OthersKept(ss: seq<LocalSession>, at: int, now: Time)
    ensures var kept := Filter(ss, FreshAt(now));
            if 0 <= at < |kept| then SameOthers(kept[at := kept[at].(lastUseAt := now)], ss, kept[at].tokenHash, now)
            else forall hash :: SameOthers(kept, ss, hash, now)
  {
    var kept := Filter(ss, FreshAt(now));
    forall s ensures s in kept <==> s in ss && Fresh(s, now) {
      FilterMembers(ss, FreshAt(now), s);
    }
    if 0 <= at < |kept| {
      var next := kept[at := kept[at].(lastUseAt := now)];
      forall s: LocalSession | s.tokenHash != kept[at].tokenHash ensures s in next <==> s in kept {
        if s in kept {
          var i :| 0 <= i < |kept| && kept[i] == s;
          assert next[i] == s;
        }
      }
    }
  }

  /** The other stored cookies stay exactly if they may be used. */
  ghost predicate OthersGoOn(ss: seq<LocalSession>, uses: map<string, seq<Time>>, hash: string, now: Time, next: seq<LocalSession>) {
    forall h | h != hash :: Holds(next, h) <==> Holds(ss, h) && h in uses && Chain(uses[h] + [now])
  }

  lemma OthersByChain(ss: seq<LocalSession>, uses: map<string, seq<Time>>, hash: string, now: Time, next: seq<LocalSession>)
    requires Good(ss, uses) && SameOthers(next, ss, hash, now)
    ensures OthersGoOn(ss, uses, hash, now, next)
  {
    hide Chain, Fresh;
    forall h | h != hash ensures Holds(next, h) <==> Holds(ss, h) && h in uses && Chain(uses[h] + [now]) {
      if Holds(next, h) {
        var i :| 0 <= i < |next| && next[i].tokenHash == h;
        assert next[i] in next;
        var j :| 0 <= j < |ss| && ss[j] == next[i];
        assert Recorded(ss[j], uses);
        FreshIsChain(ss[j], uses, now);
      }
      if Holds(ss, h) {
        var j :| 0 <= j < |ss| && ss[j].tokenHash == h;
        assert Recorded(ss[j], uses);
        FreshIsChain(ss[j], uses, now);
      }
    }
  }

  lemma ChainIsOpen(uses: seq<Time>)
    requires Chain(uses)
    ensures forall t | t <= uses[|uses| - 1] + IDLE && t < uses[0] + ABSOLUTE :: Chain(uses + [t])
  {
    forall t | t <= uses[|uses| - 1] + IDLE && t < uses[0] + ABSOLUTE ensures Chain(uses + [t]) {
      ChainAppend(uses, t);
    }
  }

  /** What pruning and noting a use come to: valid exactly if the session was usable. */
  lemma UseStep(ss: seq<LocalSession>, hash: string, now: Time, uses: map<string, seq<Time>>, next: seq<LocalSession>, at: int)
    requires Good(ss, uses)
    requires var kept := Filter(ss, FreshAt(now));
             if at < 0 then next == kept && !Holds(kept, hash)
             else at < |kept| && kept[at].tokenHash == hash && next == kept[at := kept[at].(lastUseAt := now)]
    ensures |next| <= |ss| && NoNewCookies(next, ss) && SameOthers(next, ss, hash, now)
    ensures at < 0 ==> Good(next, uses) && !Usable(ss, hash, now)
    ensures at >= 0 ==> (SessionsValid(next) <==> Usable(ss, hash, now)) && Holds(ss, hash) && hash in uses
    ensures at >= 0 && Usable(ss, hash, now) ==>
              Chain(uses[hash] + [now]) && Good(next, uses[hash := uses[hash] + [now]])
  {
    var kept := Filter(ss, FreshAt(now));
    FilterKeeps(ss, FreshAt(now), uses);
    FilterAll(ss, FreshAt(now));
    MembersHold(kept, ss);
    UsableIsKept(ss, hash, now);
    OthersKept(ss, at, now);
    if at < 0 {
      assert forall s | s in kept :: s.tokenHash != hash;
    } else {
      UsableAt(kept, at, now);
      assert kept[at] in kept && Recorded(kept[at], uses);
      assert Holds(kept, hash) && forall h | Holds(next, h) :: Holds(kept, h);
      if now >= kept[at].createdAt {
        GoodUse(kept, at, now, uses);
      } else {
        assert !ValidSession(next[at]);
      }
    }
  }

  class Manager {
    /** The digest of a cookie, as stored in its session. */
    const hash: string -> string
    /** The sessions in the store. */
    var sessions: seq<LocalSession>
    /** For every cookie ever issued: its creation and its successful uses, in order; the program
        does not keep them. */
    var uses: map<string, seq<Time>>

    ghost predicate Valid()
      reads this
    {
      Good(sessions, uses) && |sessions| <= MAX_SESSIONS
    }

    /** Cookies whose sessions are gone stay gone. */
    twostate predicate GoneStaysGone()
      reads this
    {
      && old(uses).Keys <= uses.Keys
      && forall h | h in old(uses) && !Holds(old(sessions), h) :: !Holds(sessions, h)
    }

    constructor (hash: string -> string)
      ensures Valid() && sessions == [] && uses == map[]
    {
      this.hash := hash;
      sessions, uses := [], map[];
    }

    /** The compaction of prune and of revocation: what stays is written over the front. */
    static method Compact(ss: seq<LocalSession>, k: Keep) returns (r: seq<LocalSession>)
      ensures r == Filter(ss, k)
    {
      r := [];
      for i := 0 to |ss|
        invariant r == Filter(ss[..i], k)
      {
        assert ss[..i + 1][..i] == ss[..i];
        if Stays(k, ss[i]) { r := r + [ss[i]]; }
      }
      assert ss[..|ss|] == ss;
    }

    static method Room(ss: seq<LocalSession>, now: Time) returns (kept: seq<LocalSession>)
      ensures kept == MakeRoom(ss, now)
    {
      kept := Compact(ss, FreshAt(now));
      if |kept| >= MAX_SESSIONS { kept := kept[1..]; }
    }

    /** Notes the use of the session with this digest, if there is one. */
    static method Touch(ss: seq<LocalSession>, digest: string, now: Time)
      returns (next: seq<LocalSession>, found: Option<LocalSession>, ghost at: int)
      requires DistinctHashes(ss)
      ensures -1 <= at < |ss|
      ensures at == -1 ==> next == ss && found == None && !Holds(ss, digest)
      ensures at >= 0 ==> ss[at].tokenHash == digest && next == ss[at := ss[at].(lastUseAt := now)] && found == Some(next[at])
    {
      next, found, at := ss, None, -1;
      for i := 0 to |ss|
        invariant -1 <= at < i
        invariant at == -1 ==> next == ss && found == None && forall j | 0 <= j < i :: ss[j].tokenHash != digest
        invariant at >= 0 ==> ss[at].tokenHash == digest && next == ss[at := ss[at].(lastUseAt := now)] && found == Some(next[at])
      {
        if next[i].tokenHash == digest {
          assert at == -1;
          next := next[i := next[i].(lastUseAt := now)];
          found := Some(next[i]);
          at := i;
        }
      }
    }

    /** Stores a new session list, unless it is invalid or the write fails. */
    method Commit(next: seq<LocalSession>, persists: bool) returns (ok: bool)
      modifies this`sessions
      ensures ok <==> persists && SessionsValid(next) && |next| <= MAX_SESSIONS
      ensures sessions == if ok then next else old(sessions)
    {
      ok := persists && SessionsValid(next) && |next| <= MAX_SESSIONS;
      if ok { sessions := next; }
    }

    /** The session record for a new cookie. */
    function Issued(cookie: string, id: string, owner: string, now: Time): LocalSession {
      LocalSession(id, owner, hash(cookie), now, now, now, now + ABSOLUTE)
    }

    /** A new session: expired ones go, and the oldest if the list is full. The cookie and
        the identifier are fresh. */
    method Create(cookie: string, id: string, owner: string, now: Time, persists: bool) returns (ok: bool)
      requires Valid() && hash(cookie) !in uses && forall i | 0 <= i < |sessions| :: sessions[i].id != id
      modifies this
      ensures Valid() && GoneStaysGone()
      ensures ok <==> persists && ValidSession(Issued(cookie, id, owner, now))
      ensures ok ==> Holds(sessions, hash(cookie)) && uses == old(uses)[hash(cookie) := [now]]
      ensures ok ==> sessions == MakeRoom(old(sessions), now) + [Issued(cookie, id, owner, now)]
      ensures ok ==> forall t | now <= t <= now + IDLE :: Usable(sessions, hash(cookie), t)
      ensures ok ==>
                sessions != [] && sessions[|sessions| - 1] ==
                LocalSession(id, owner, hash(cookie), now, now, now, now + 12 * 60 * 60 * 1_000_000_000)
      ensures ok ==> exists first :: OldestMadeRoom(old(sessions), old(uses), now, first, sessions)
      ensures !ok ==> sessions == old(sessions) && uses == old(uses)
    {
      hide MakeRoom, Good, SessionsValid, ValidSession, OldestMadeRoom, Usable, Holds;
      var record := Issued(cookie, id, owner, now);
      var kept := Room(sessions, now);
      Issuing(sessions, record, uses);
      ghost var first := RoomIsTheOldest(sessions, now, uses, record);
      ok := Commit(kept + [record], persists);
      if ok { uses := uses[hash(cookie) := [now]]; }
    }

    /** A cookie authenticates exactly when its session is stored, was used within half an
        hour and expires later, and the use is stored. Then the use is the next link of an
        unbroken chain of successful uses since the creation of the cookie. */
    method Authenticate(cookie: string, now: Time, persists: bool) returns (found: Option<LocalSession>)
      requires Valid()
      modifies this
      ensures Valid() && GoneStaysGone()
      ensures found.Some? ==>
                && Holds(old(sessions), hash(cookie))
                && hash(cookie) in old(uses) && uses == old(uses)[hash(cookie) := old(uses)[hash(cookie)] + [now]]
                && Chain(uses[hash(cookie)])
                && found.value.tokenHash == hash(cookie) && found.value.lastUseAt == now
      ensures found.None? ==> uses == old(uses)
      ensures found.Some? <==> persists && Usable(old(sessions), hash(cookie), now)
      ensures found.Some? <==>
                && persists && Holds(old(sessions), hash(cookie)) && hash(cookie) in old(uses)
                && Chain(old(uses)[hash(cookie)] + [now]) && old(uses)[hash(cookie)][0] <= now
      ensures found.Some? ==>
                && Holds(sessions, hash(cookie)) && found.value in sessions
                && exists s :: s in old(sessions) && found == Some(s.(lastUseAt := now))
      ensures found.Some? ==>
                forall t | now <= t <= now + IDLE && t < uses[hash(cookie)][0] + ABSOLUTE :: Chain(uses[hash(cookie)] + [t])
      ensures found.Some? || sessions != old(sessions) ==> OthersGoOn(old(sessions), old(uses), hash(cookie), now, sessions)
      ensures found.Some? || sessions != old(sessions) ==> SameOthers(sessions, old(sessions), hash(cookie), now)
    {
      hide Chain, Fresh, Usable, Filter;
      var kept := Compact(sessions, FreshAt(now));
      FilterKeeps(sessions, FreshAt(now), uses);
      var next;
      ghost var at;
      next, found, at := Touch(kept, hash(cookie), now);
      FilterAll(sessions, FreshAt(now));
      assert at >= 0 ==> kept[at] in kept;
      UseStep(sessions, hash(cookie), now, uses, next, at);
      UsableIsChain(sessions, uses, hash(cookie), now);
      OthersByChain(sessions, uses, hash(cookie), now, next);
      var ok := Commit(next, persists);
      if !ok { return None; }
      if found.Some? {
        uses := uses[hash(cookie) := uses[hash(cookie)] + [now]];
        ChainIsOpen(uses[hash(cookie)]);
      }
    }

    /** Signs one session out. */
    method Revoke(id: string, persists: bool) returns (ok: bool)
      requires Valid()
      modifies this`sessions
      ensures Valid() && GoneStaysGone()
      ensures ok <==> persists
      ensures sessions == if ok then Filter(old(sessions), OtherThan(id)) else old(sessions)
      ensures ok ==> forall s | s in old(sessions) && s.id == id :: !Holds(sessions, s.tokenHash)
      ensures ok ==> forall s :: s in sessions <==> s in old(sessions) && s.id != id
    {
      var kept := Compact(sessions, OtherThan(id));
      FilterKeeps(sessions, OtherThan(id), uses);
      FilterAll(sessions, OtherThan(id));
      MembersHold(kept, sessions);
      forall s | s in sessions && s.id == id ensures !Holds(kept, s.tokenHash) {
        RevokedIsGone(sessions, s);
      }
      forall s ensures s in kept <==> s in sessions && s.id != id { FilterMembers(sessions, OtherThan(id), s); }
      ok := Commit(kept, persists);
    }

    static lemma RevokedIsGone(ss: seq<LocalSession>, s: LocalSession)
      requires DistinctHashes(ss) && s in ss
      ensures !Holds(Filter(ss, OtherThan(s.id)), s.tokenHash)
    {
      FilterAll(ss, OtherThan(s.id));
      var r := Filter(ss, OtherThan(s.id));
      var i :| 0 <= i < |ss| && ss[i] == s;
      forall k | 0 <= k < |r| ensures r[k].tokenHash != s.tokenHash {
        assert r[k] in ss;
        var j :| 0 <= j < |ss| && ss[j] == r[k];
        assert i != j;
      }
    }

    /** Signs every session out. */
    method RevokeAll(persists: bool) returns (ok: bool)
      requires Valid()
      modifies this`sessions
      ensures Valid() && GoneStaysGone()
      ensures ok <==> persists
      ensures sessions == if ok then [] else old(sessions)
      ensures ok ==> forall h :: !Holds(sessions, h)
    {
      ok := Commit([], persists);
    }

    /** A committed rotation leaves no session in the store. */
    method SignedOut(stored: seq<LocalSession>)
      requires Valid() && stored == []
      modifies this`sessions
      ensures Valid() && GoneStaysGone() && sessions == stored
      ensures forall h :: !Holds(sessions, h)
    {
      sessions := stored;
    }

    /** Any run of requests, with the digests that were authenticated: none of a cookie that was
        issued and whose session was gone before is among them. */
    method Run(requests: seq<Request>) returns (authenticated: seq<string>)
      requires Valid()
      modifies this
      ensures Valid() && GoneStaysGone()
      ensures forall i | 0 <= i < |authenticated| ::
                authenticated[i] in old(uses) ==> Holds(old(sessions), authenticated[i])
    {
      authenticated := [];
      for i := 0 to |requests|
        invariant Valid() && GoneStaysGone()
        invariant forall j | 0 <= j < |authenticated| :: authenticated[j] in old(uses) ==> Holds(old(sessions), authenticated[j])
      {
        var ok;
        match requests[i] {
          case Use(cookie, at, persists) =>
            var found := Authenticate(cookie, at, persists);
            if found.Some? { authenticated := authenticated + [hash(cookie)]; }
          case Open(cookie, id, owner, at, persists) =>
            // cookies and identifiers are fresh
            if hash(cookie) !in uses && forall j | 0 <= j < |sessions| :: sessions[j].id != id {
              ok := Create(cookie, id, owner, at, persists);
            }
          case Close(id, persists) =>
            ok := Revoke(id, persists);
          case CloseAll(persists) =>
            ok := RevokeAll(persists);
        }
      }
    }
  }

  datatype Request =
    | Use(cookie: string, at: Time, persists: bool)
    | Open(cookie: string, id: string, owner: string, at: Time, persists: bool)
    | Close(id: string, persists: bool)
    | CloseAll(persists: bool)
}
