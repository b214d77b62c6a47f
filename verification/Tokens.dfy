/** API tokens: creation, authorization with a token bucket per token, revocation. */
module Tokens {
  import opened Options
  import opened Model

  // ----- The bucket -----

  const BURST: real := 20.0

  datatype Bucket = Bucket(remaining: real, updated: Time)

  function Seconds(d: Time): real { d as real / 1_000_000_000.0 }

  /** One call: refill by the time passed, cap at the burst, spend one unit if there is one. */
  function Refill(b: Option<Bucket>, now: Time): real {
    if b.None? then BURST
    else
      var full := b.value.remaining + Seconds(now - b.value.updated);
      if full > BURST then BURST else full
  }

  function Granted(b: Option<Bucket>, now: Time): bool {
    Refill(b, now) >= 1.0
  }

  function AfterCall(b: Option<Bucket>, now: Time): Bucket {
    Bucket(if Granted(b, now) then Refill(b, now) - 1.0 else Refill(b, now), now)
  }

  /** Why a bucket is gone: a revocation, which deletes it even if it does not reach the
      store, or a restart, since buckets live in memory only. */
  datatype Cause = Revocation | Restart

  /** What happens to one token's bucket: a call that reached it, or its removal. */
  datatype Event = Call(at: Time) | Reset(at: Time, cause: Cause)

  function Step(b: Option<Bucket>, e: Event): Option<Bucket> {
    if e.Call? then Some(AfterCall(b, e.at)) else None
  }

  function Replay(es: seq<Event>): Option<Bucket> {
    if es == [] then None else Step(Replay(es[..|es| - 1]), es[|es| - 1])
  }

  /** Calls granted among the events from index `i` on. */
  function Grants(es: seq<Event>, i: nat): nat
    requires i <= |es|
    decreases |es|
  {
    if i == |es| then 0
    else
      var last := es[|es| - 1];
      Grants(es[..|es| - 1], i) + (if last.Call? && Granted(Replay(es[..|es| - 1]), last.at) then 1 else 0)
  }

  function Resets(es: seq<Event>, i: nat): nat
    requires i <= |es|
    decreases |es|
  {
    if i == |es| then 0 else Resets(es[..|es| - 1], i) + (if es[|es| - 1].Reset? then 1 else 0)
  }

  /** The clock does not go backwards. */
  predicate Ordered(es: seq<Event>) {
    forall i, j | 0 <= i < j < |es| :: es[i].at <= es[j].at
  }

  lemma {:induction false} BucketInRange(es: seq<Event>)
    requires Ordered(es)
    ensures var b := Replay(es);
            b.Some? ==> 0.0 <= b.value.remaining <= BURST && es != [] && b.value.updated == es[|es| - 1].at
  {
    if es != [] {
      var front := es[..|es| - 1];
      BucketInRange(front);
      if Replay(front).Some? {
        assert front[|front| - 1].at <= es[|es| - 1].at;
      }
    }
  }

  /** What is left in the bucket, counting a missing bucket as full. */
  function Available(es: seq<Event>): real {
    var b := Replay(es);
    if b.Some? then b.value.remaining else BURST
  }

  lemma {:induction false} WindowPotential(es: seq<Event>, i: nat)
    requires Ordered(es) && i < |es|
    ensures Grants(es, i) as real + Available(es) <=
            BURST * (1 + Resets(es, i)) as real + Seconds(es[|es| - 1].at - es[i].at)
    decreases |es|
  {
    var front, last := es[..|es| - 1], es[|es| - 1];
    BucketInRange(front);
    if i == |front| {
      assert Grants(front, i) == 0 && Resets(front, i) == 0;
    } else {
      WindowPotential(front, i);
      assert front[|front| - 1].at <= last.at && front[i] == es[i];
    }
  }

  /** The rate law: over every window of a token's history, from its first to its last
      event, the granted calls number at most 20, plus 20 for each time its bucket was lost in
      the window, plus one for each second of the window. */
  lemma RateBound(es: seq<Event>, i: nat)
    requires Ordered(es) && i < |es|
    ensures Grants(es, i) as real <= BURST * (1 + Resets(es, i)) as real + Seconds(es[|es| - 1].at - es[i].at)
  {
    WindowPotential(es, i);
    BucketInRange(es);
  }

  // ----- A call is refused only if granting it would break the law -----

  /** A window of the history that ends now: its start, if the bucket was not lost since. */
  predicate Window(es: seq<Event>, i: nat) {
    i < |es| && Resets(es, i) == 0
  }

  /** What the windows leave for a call at `t`. */
  function Leaves(es: seq<Event>, i: nat, t: Time): real
    requires i < |es|
  {
    BURST + Seconds(t - es[i].at) - Grants(es, i) as real
  }

  lemma NoWindowLeavesLess(es: seq<Event>, i: nat, t: Time)
    requires Ordered(es) && Window(es, i) && es[|es| - 1].at <= t
    ensures Refill(Replay(es), t) <= Leaves(es, i, t)
  {
    WindowPotential(es, i);
    BucketInRange(es);
    assert es[|es| - 1].Call?;
  }

  /** The bucket is full, or has exactly what some window leaves. */
  lemma {:induction false} SomeWindowLeavesIt(es: seq<Event>, t: Time) returns (i: nat)
    requires Ordered(es) && (es == [] || es[|es| - 1].at <= t)
    ensures Refill(Replay(es), t) == BURST || (Window(es, i) && Refill(Replay(es), t) == Leaves(es, i, t))
    decreases |es|
  {
    i := 0;
    if es != [] && es[|es| - 1].Call? {
      var front, last := es[..|es| - 1], es[|es| - 1];
      if front != [] { assert front[|front| - 1].at <= last.at; }
      i := SomeWindowLeavesIt(front, last.at);
      if Refill(Replay(front), last.at) == BURST { i := |front|; }
      assert i == |front| ==> Grants(front, i) == 0 && Resets(front, i) == 0;
    }
  }

  /** A call is granted if and only if with it no window since the bucket was last lost has more
      than 20 granted calls and one for each second. */
  lemma GrantedIffWithinTheRate(es: seq<Event>, t: Time)
    requires Ordered(es) && (es == [] || es[|es| - 1].at <= t)
    ensures Granted(Replay(es), t) <==>
            forall i | 0 <= i < |es| && Resets(es, i) == 0 :: Grants(es, i) as real + 1.0 <= 20.0 + Seconds(t - es[i].at)
  {
    forall i | 0 <= i < |es| && Resets(es, i) == 0 ensures Refill(Replay(es), t) <= Leaves(es, i, t) {
      NoWindowLeavesLess(es, i, t);
    }
    var i := SomeWindowLeavesIt(es, t);
  }

  /** A second after any other event a call is granted. */
  lemma GrantedAfterASecond(es: seq<Event>, t: Time)
    requires Ordered(es) && (es == [] || es[|es| - 1].at + 1_000_000_000 <= t)
    ensures Granted(Replay(es), t)
  {
    BucketInRange(es);
  }

  // ----- The bound is exact in the number of lost buckets -----

  function Count(es: seq<Event>, cause: Cause): nat {
    if es == [] then 0
    else Count(es[..|es| - 1], cause) + (if es[|es| - 1].Reset? && es[|es| - 1].cause == cause then 1 else 0)
  }

  lemma Appended(es: seq<Event>, e: Event, i: nat)
    requires i <= |es|
    ensures Replay(es + [e]) == Step(Replay(es), e)
    ensures Grants(es + [e], i) == Grants(es, i) + (if e.Call? && Granted(Replay(es), e.at) then 1 else 0)
    ensures Resets(es + [e], i) == Resets(es, i) + (if e.Reset? then 1 else 0)
  {
    assert (es + [e])[..|es|] == es;
  }

  lemma AppendedCount(es: seq<Event>, e: Event, cause: Cause)
    ensures Count(es + [e], cause) == Count(es, cause) + (if e.Reset? && e.cause == cause then 1 else 0)
  {
    assert (es + [e])[..|es|] == es;
  }

  lemma {:induction false} ResetsByCause(es: seq<Event>)
    ensures Resets(es, 0) == Count(es, Revocation) + Count(es, Restart)
  {
    if es != [] { ResetsByCause(es[..|es| - 1]); }
  }

  predicate AllAt(es: seq<Event>, t: Time) {
    forall j | 0 <= j < |es| :: es[j].at == t
  }

  /** `n` calls at time `t` after `es`. */
  function Calls(es: seq<Event>, t: Time, n: nat): seq<Event> {
    if n == 0 then es else Calls(es, t, n - 1) + [Call(t)]
  }

  lemma {:induction false} CallsKeep(es: seq<Event>, t: Time, n: nat)
    requires AllAt(es, t)
    ensures AllAt(Calls(es, t, n), t) && |Calls(es, t, n)| == |es| + n
    ensures Count(Calls(es, t, n), Revocation) == Count(es, Revocation) && Count(Calls(es, t, n), Restart) == Count(es, Restart)
  {
    if n > 0 {
      CallsKeep(es, t, n - 1);
      AppendedCount(Calls(es, t, n - 1), Call(t), Revocation);
      AppendedCount(Calls(es, t, n - 1), Call(t), Restart);
    }
  }

  /** From a full bucket the first 20 calls are granted. */
  lemma {:induction false} CallsFromFull(es: seq<Event>, t: Time, n: nat)
    requires Replay(es).None? && n <= 20
    ensures Grants(Calls(es, t, n), 0) == Grants(es, 0) + n
    ensures Replay(Calls(es, t, n)) == if n == 0 then None else Some(Bucket(BURST - n as real, t))
  {
    if n > 0 {
      CallsFromFull(es, t, n - 1);
      Appended(Calls(es, t, n - 1), Call(t), 0);
    }
  }

  function CountOf(causes: seq<Cause>, cause: Cause): nat {
    if causes == [] then 0
    else CountOf(causes[..|causes| - 1], cause) + (if causes[|causes| - 1] == cause then 1 else 0)
  }

  /** Bursts at time `t`, each but the last followed by the loss of the bucket. */
  lemma {:induction false} Bursts(t: Time, causes: seq<Cause>) returns (es: seq<Event>)
    ensures es != [] && AllAt(es, t)
    ensures Count(es, Revocation) == CountOf(causes, Revocation) && Count(es, Restart) == CountOf(causes, Restart)
    ensures Grants(es, 0) == 20 * (|causes| + 1)
  {
    var base: seq<Event> := [];
    if causes != [] {
      var front := Bursts(t, causes[..|causes| - 1]);
      var e := Reset(t, causes[|causes| - 1]);
      base := front + [e];
      Appended(front, e, 0);
      AppendedCount(front, e, Revocation);
      AppendedCount(front, e, Restart);
    }
    CallsFromFull(base, t, 20);
    CallsKeep(base, t, 20);
    es := Calls(base, t, 20);
  }

  lemma {:induction false} CausesFor(r: nat, s: nat) returns (causes: seq<Cause>)
    ensures |causes| == r + s && CountOf(causes, Revocation) == r && CountOf(causes, Restart) == s
  {
    if r == 0 && s == 0 {
      causes := [];
    } else {
      var last := if r > 0 then Revocation else Restart;
      var front := CausesFor(if r > 0 then r - 1 else 0, if r > 0 then s else s - 1);
      causes := front + [last];
      assert causes[..|causes| - 1] == front;
    }
  }

  /** The plain bound of 20 plus one per second holds for every history with `r` revocations and
      `s` restarts if and only if there are none of either. */
  lemma PlainBoundIffBucketKept(r: nat, s: nat)
    ensures (forall es: seq<Event> | es != [] && Ordered(es) && Count(es, Revocation) == r && Count(es, Restart) == s ::
               Grants(es, 0) as real <= BURST + Seconds(es[|es| - 1].at - es[0].at)) <==> r == 0 && s == 0
  {
    if r == 0 && s == 0 {
      forall es: seq<Event> | es != [] && Ordered(es) && Count(es, Revocation) == r && Count(es, Restart) == s
        ensures Grants(es, 0) as real <= BURST + Seconds(es[|es| - 1].at - es[0].at)
      {
        RateBound(es, 0);
        ResetsByCause(es);
      }
    } else {
      var causes := CausesFor(r, s);
      var es := Bursts(0, causes);
      assert Ordered(es) && Grants(es, 0) as real > BURST + Seconds(es[|es| - 1].at - es[0].at);
    }
  }

  // ----- The token manager -----

  const READ := "mappings:read"
  const WRITE := "mappings:write"
  const YEAR := 365 * 24 * 3600 * 1_000_000_000

  predicate Scoped(scopes: seq<string>, required: string) {
    required in scopes || (required == READ && WRITE in scopes)
  }

  method HasScope(scopes: seq<string>, required: string) returns (ok: bool)
    ensures ok <==> Scoped(scopes, required)
  {
    for i := 0 to |scopes|
      invariant required !in scopes[..i] && (required == READ ==> WRITE !in scopes[..i])
    {
      if scopes[i] == required || (scopes[i] == WRITE && required == READ) { return true; }
    }
    assert scopes[..|scopes|] == scopes;
    ok := false;
  }

  /** What a token asked for with these scopes may do; writing includes reading. */
  predicate Covers(scopes: seq<string>, required: string) {
    match required
    case "mappings:read" => scopes == [] || "mappings:read" in scopes || "mappings:write" in scopes
    case "mappings:write" => scopes == [] || "mappings:write" in scopes
    case _ => required in scopes
  }

  /** No lifetime is no end, and neither is one that would end at the zero time. */
  predicate Lives(lifetime: int, now: Time, t: Time) {
    lifetime <= 0 || now + lifetime == 0 || t < now + lifetime
  }

  /** The identifier inside a token "tk_<32 characters>_<43 characters>". */
  function TokenId(token: string): Option<string> {
    if |token| == 79 && token[..3] == "tk_" && token[35] == '_' then Some(token[3..35]) else None
  }

  /** The text of a token. */
  function TokenText(id: string, secret: string): string {
    "tk_" + id + "_" + secret
  }

  lemma TokenTextNamesId(id: string, secret: string)
    requires |id| == 32 && |secret| == 43
    ensures TokenId(TokenText(id, secret)) == Some(id)
  {
    var text := TokenText(id, secret);
    assert text[..3] == "tk_" && text[3..35] == id && text[35] == '_';
  }

  predicate Unexpired(r: AgentToken, now: Time) {
    r.expiresAt == 0 || now < r.expiresAt
  }

  /** The use of one token that has not expired is noted, and nothing else changes. */
  predicate UsedOnce(before: seq<AgentToken>, after: seq<AgentToken>, id: string, now: Time) {
    && |after| == |before|
    && (forall j | 0 <= j < |before| ::
          after[j] == before[j].(lastUseAt := if before[j].id == id then now else before[j].lastUseAt))
    && (exists j :: 0 <= j < |before| && before[j].id == id && Unexpired(before[j], now))
  }

  /** The records in `after` of tokens in `before` differ in their last use at most, and those
      that are gone are revoked. */
  ghost predicate SameTerms(before: seq<AgentToken>, after: seq<AgentToken>, revoked: set<string>) {
    && (forall r, s | r in before && s in after && r.id == s.id :: s == r.(lastUseAt := s.lastUseAt))
    && (forall r | r in before && r.id !in revoked :: exists s :: s in after && s.id == r.id)
  }

  lemma SameTermsAtStart(tokens: seq<AgentToken>, revoked: set<string>)
    requires TokensValid(tokens)
    ensures SameTerms(tokens, tokens, revoked)
  {
    forall r, s | r in tokens && s in tokens && r.id == s.id ensures s == r {
      var i :| 0 <= i < |tokens| && tokens[i] == r;
      var j :| 0 <= j < |tokens| && tokens[j] == s;
      assert i == j;
    }
  }

  lemma SameTermsIssued(start: seq<AgentToken>, before: seq<AgentToken>, r: AgentToken, revoked: set<string>)
    requires SameTerms(start, before, revoked) && r.id !in revoked && forall s | s in before :: s.id != r.id
    ensures SameTerms(start, before + [r], revoked)
  {
  }

  lemma SameTermsRevoked(start: seq<AgentToken>, before: seq<AgentToken>, after: seq<AgentToken>, revoked: set<string>, id: string)
    requires SameTerms(start, before, revoked) && forall r :: r in after <==> r in before && r.id != id
    ensures SameTerms(start, after, revoked + {id})
  {
  }

  lemma SameTermsUsed(start: seq<AgentToken>, before: seq<AgentToken>, after: seq<AgentToken>, revoked: set<string>, id: string, now: Time)
    requires SameTerms(start, before, revoked) && UsedOnce(before, after, id, now)
    ensures SameTerms(start, after, revoked)
    ensures forall r | r in start && r.id == id :: Unexpired(r, now)
  {
    forall r | r in start && r.id !in revoked ensures exists s :: s in after && s.id == r.id {
      var s :| s in before && s.id == r.id;
      var j :| 0 <= j < |before| && before[j] == s;
      assert after[j] in after && after[j].id == r.id;
    }
    forall r, s | r in start && s in after && r.id == s.id ensures s == r.(lastUseAt := s.lastUseAt) {
      var j :| 0 <= j < |after| && after[j] == s;
      assert before[j] in before;
    }
    forall r | r in start && r.id == id ensures Unexpired(r, now) {
      var j :| 0 <= j < |before| && before[j].id == id && Unexpired(before[j], now);
      assert before[j] in before;
    }
  }

  /** The events of one token. */
  ghost function History(history: map<string, seq<Event>>, id: string): seq<Event> {
    if id in history then history[id] else []
  }

  /** A token's bucket is what its history makes it, and its history is in the past. */
  ghost predicate BucketOk(rates: map<string, Bucket>, history: map<string, seq<Event>>, clock: Time, id: string) {
    && (if id in rates then Some(rates[id]) else None) == Replay(History(history, id))
    && Ordered(History(history, id))
    && (forall j | 0 <= j < |History(history, id)| :: History(history, id)[j].at <= clock)
  }

  ghost predicate Tracks(rates: map<string, Bucket>, history: map<string, seq<Event>>, clock: Time) {
    forall id :: BucketOk(rates, history, clock, id)
  }

  lemma OrderedAppend(es: seq<Event>, e: Event, clock: Time)
    requires Ordered(es) && clock <= e.at && forall j | 0 <= j < |es| :: es[j].at <= clock
    ensures Ordered(es + [e]) && Replay(es + [e]) == Step(Replay(es), e)
    ensures forall j | 0 <= j < |es| + 1 :: (es + [e])[j].at <= e.at
  {
    var all := es + [e];
    assert all[..|es|] == es && all[|es|] == e;
    assert Replay(all) == Step(Replay(es), e);
    hide Replay, Step;
    assert forall j | 0 <= j < |es| :: all[j] == es[j];
  }

  /** The rates after an event of token `id`. */
  function NextRates(rates: map<string, Bucket>, id: string, b: Option<Bucket>): map<string, Bucket> {
    if b.Some? then rates[id := b.value] else rates - {id}
  }

  lemma TracksOwn(rates: map<string, Bucket>, history: map<string, seq<Event>>, clock: Time, id: string, e: Event)
    requires BucketOk(rates, history, clock, id) && clock <= e.at
    ensures var was := History(history, id);
            BucketOk(NextRates(rates, id, Step(Replay(was), e)), history[id := was + [e]], e.at, id)
  {
    var was := History(history, id);
    OrderedAppend(was, e, clock);
    assert History(history[id := was + [e]], id) == was + [e];
  }

  lemma TracksOther(rates: map<string, Bucket>, history: map<string, seq<Event>>, clock: Time, id: string, other: string,
                    b: Option<Bucket>, es: seq<Event>, now: Time)
    requires BucketOk(rates, history, clock, other) && other != id && clock <= now
    ensures BucketOk(NextRates(rates, id, b), history[id := es], now, other)
  {
    assert History(history[id := es], other) == History(history, other);
  }

  lemma TracksEvent(rates: map<string, Bucket>, history: map<string, seq<Event>>, clock: Time, id: string, e: Event)
    requires Tracks(rates, history, clock) && clock <= e.at
    ensures Tracks(NextRates(rates, id, Step(Replay(History(history, id)), e)), history[id := History(history, id) + [e]], e.at)
  {
    var was := History(history, id);
    var b := Step(Replay(was), e);
    var rates', history' := NextRates(rates, id, b), history[id := was + [e]];
    forall other ensures BucketOk(rates', history', e.at, other) {
      assert BucketOk(rates, history, clock, other);
      if other == id {
        TracksOwn(rates, history, clock, id, e);
      } else {
        TracksOther(rates, history, clock, id, other, b, was + [e], e.at);
      }
    }
  }

  /** Every history ends with the loss of its bucket. */
  ghost function AllLost(history: map<string, seq<Event>>, now: Time): map<string, seq<Event>> {
    map id | id in history :: history[id] + [Reset(now, Restart)]
  }

  lemma TracksRestart(rates: map<string, Bucket>, history: map<string, seq<Event>>, clock: Time, now: Time)
    requires Tracks(rates, history, clock) && clock <= now
    ensures Tracks(map[], AllLost(history, now), now)
  {
    var none: map<string, Bucket> := map[];
    var lost := AllLost(history, now);
    forall id ensures BucketOk(none, lost, now, id) {
      assert BucketOk(rates, history, clock, id);
      if id in history { OrderedAppend(history[id], Reset(now, Restart), clock); }
    }
  }

  class Manager {
    /** The digest of a token, as stored in its record. */
    const digest: string -> string
    /** The records in the store. */
    var tokens: seq<AgentToken>
    var rates: map<string, Bucket>
    var clock: Time
    /** Each token's history. */
    ghost var history: map<string, seq<Event>>
    /** The identifiers whose revocation reached the store; the program does not keep them. */
    var revoked: set<string>

    ghost predicate Valid()
      reads this
    {
      && TokensValid(tokens) && |tokens| <= MAX_TOKENS
      && (forall i | 0 <= i < |tokens| :: tokens[i].id !in revoked)
      && Tracks(rates, history, clock)
    }

    constructor (digest: string -> string, tokens: seq<AgentToken>)
      requires TokensValid(tokens) && |tokens| <= MAX_TOKENS
      ensures Valid() && this.tokens == tokens && this.digest == digest
      ensures rates == map[] && history == map[] && revoked == {} && clock == 0
    {
      this.digest, this.tokens := digest, tokens;
      rates, clock, history, revoked := map[], 0, map[], {};
    }

    /** The record accepts the token for this scope now. */
    predicate Accepts(r: AgentToken, token: string, id: string, required: string, now: Time)
    {
      r.tokenHash == digest(token) && r.id == id && (r.expiresAt == 0 || now < r.expiresAt) && Scoped(r.scopes, required)
    }

    /** The use of an accepting record is noted. */
    function Stamped(r: AgentToken, token: string, id: string, required: string, now: Time): AgentToken {
      if Accepts(r, token, id, required, now) then r.(lastUseAt := now) else r
    }

    method Allow(id: string, now: Time) returns (ok: bool)
      requires Tracks(rates, history, clock) && clock <= now
      modifies this`rates, this`history, this`clock
      ensures Tracks(rates, history, clock) && clock == now
      ensures ok <==> Granted(Replay(History(old(history), id)), now)
      ensures history == old(history)[id := History(old(history), id) + [Call(now)]]
    {
      TracksEvent(rates, history, clock, id, Call(now));
      assert BucketOk(rates, history, clock, id);
      ghost var was := Replay(History(history, id));
      var b := if id in rates then rates[id] else Bucket(BURST, now);
      var full := b.remaining + Seconds(now - b.updated);
      if full > BURST { full := BURST; }
      assert full == Refill(was, now);
      ok := full >= 1.0;
      if ok { full := full - 1.0; }
      rates := rates[id := Bucket(full, now)];
      history := history[id := History(history, id) + [Call(now)]];
      clock := now;
    }

    /** The token names a record that accepts it. */
    ghost predicate Accepted(token: string, id: string, required: string, now: Time)
      reads this
    {
      exists i :: 0 <= i < |tokens| && Accepts(tokens[i], token, id, required, now)
    }

    /** `persists`: whether the store's write succeeds. A call is authorized exactly when
        some record accepts the token, its bucket grants the call and the use is stored; a
        call spends at most one unit, because identifiers are unique. */
    method Authorize(token: string, required: string, now: Time, persists: bool) returns (ok: bool)
      requires Valid() && clock <= now
      modifies this
      ensures Valid() && revoked == old(revoked) && clock <= now
      ensures TokenId(token).None? ==> !ok && history == old(history) && tokens == old(tokens)
      ensures TokenId(token).Some? ==>
                var id := TokenId(token).value;
                && (ok <==> old(Accepted(token, id, required, now)) && Granted(Replay(History(old(history), id)), now) && persists)
                && history == (if old(Accepted(token, id, required, now))
                               then old(history)[id := History(old(history), id) + [Call(now)]] else old(history))
                && (ok ==> id !in revoked)
      ensures !ok ==> tokens == old(tokens)
      ensures ok ==> |tokens| == |old(tokens)| && forall j | 0 <= j < |tokens| ::
                tokens[j] == Stamped(old(tokens[j]), token, TokenId(token).value, required, now)
      ensures ok ==> UsedOnce(old(tokens), tokens, TokenId(token).value, now)
    {
      if TokenId(token).None? { return false; }
      var matched, next := Scan(token, token[3..35], required, now);
      if !matched || !persists { return false; }
      AcceptedIsTheOne(token, token[3..35], required, now, next);
      tokens := next;
      ok := true;
    }

    lemma AcceptedIsTheOne(token: string, id: string, required: string, now: Time, next: seq<AgentToken>)
      requires forall i, j | 0 <= i < j < |tokens| :: tokens[i].id != tokens[j].id
      requires Accepted(token, id, required, now) && |next| == |tokens|
      requires forall j | 0 <= j < |tokens| :: next[j] == Stamped(tokens[j], token, id, required, now)
      ensures UsedOnce(tokens, next, id, now)
    {
      var i :| 0 <= i < |tokens| && Accepts(tokens[i], token, id, required, now);
      forall j | 0 <= j < |tokens| ensures Accepts(tokens[j], token, id, required, now) <==> j == i {}
      assert tokens[i].id == id && (tokens[i].expiresAt == 0 || now < tokens[i].expiresAt);
    }

    /** Charges the bucket for the record that accepts the token, if there is one. */
    method Scan(token: string, id: string, required: string, now: Time) returns (matched: bool, next: seq<AgentToken>)
      requires Tracks(rates, history, clock) && clock <= now
      requires forall i, j | 0 <= i < j < |tokens| :: tokens[i].id != tokens[j].id
      modifies this`rates, this`history, this`clock
      ensures Tracks(rates, history, clock) && clock <= now
      ensures matched <==> Accepted(token, id, required, now) && Granted(Replay(History(old(history), id)), now)
      ensures history == if Accepted(token, id, required, now)
                         then old(history)[id := History(old(history), id) + [Call(now)]] else old(history)
      ensures |next| == |tokens|
      ensures matched ==> forall j | 0 <= j < |tokens| :: next[j] == Stamped(tokens[j], token, id, required, now)
      ensures matched ==> exists i :: 0 <= i < |tokens| && tokens[i].id == id
    {
      matched, next := false, tokens;
      ghost var hit := false;
      ghost var granted := Granted(Replay(History(history, id)), now);
      for i := 0 to |tokens|
        invariant Tracks(rates, history, clock) && clock <= now
        invariant hit <==> exists j :: 0 <= j < i && Accepts(tokens[j], token, id, required, now)
        invariant history == if hit then old(history)[id := History(old(history), id) + [Call(now)]] else old(history)
        invariant matched <==> hit && granted
        invariant |next| == |tokens|
        invariant forall j | 0 <= j < i :: next[j] == if granted then Stamped(tokens[j], token, id, required, now) else tokens[j]
        invariant forall j | i <= j < |tokens| :: next[j] == tokens[j]
      {
        var r := tokens[i];
        var scoped := HasScope(r.scopes, required);
        if r.tokenHash == digest(token) && r.id == id && (r.expiresAt == 0 || now < r.expiresAt) && scoped {
          assert !hit;
          var allowed := Allow(id, now);
          if allowed {
            matched := true;
            next := next[i := next[i].(lastUseAt := now)];
          }
          hit := true;
        }
      }
    }

    /** The record of a new token: both scopes by default, no expiry for lifetime 0. */
    function Record(name: string, scopes: seq<string>, lifetime: int, id: string, token: string, now: Time): AgentToken {
      AgentToken(id, name, digest(token), if scopes == [] then [READ, WRITE] else scopes, now, 0,
                 if lifetime > 0 then now + lifetime else 0)
    }

    /** A new record with a fresh identifier; it is stored only if the store accepts it. The new
        token is accepted for its scopes as long as it lives. */
    method Create(name: string, scopes: seq<string>, lifetime: int, id: string, secret: string, now: Time, persists: bool)
      returns (ok: bool)
      requires Valid() && |secret| == 43
      requires id !in revoked && forall i | 0 <= i < |tokens| :: tokens[i].id != id
      modifies this`tokens
      ensures Valid()
      ensures ok ==> tokens == old(tokens) + [Record(name, scopes, lifetime, id, TokenText(id, secret), now)]
      ensures !ok ==> tokens == old(tokens)
      ensures ok <==> |old(tokens)| < MAX_TOKENS && 0 <= lifetime <= YEAR && persists &&
                      ValidToken(Record(name, scopes, lifetime, id, TokenText(id, secret), now))
      ensures ok ==> TokenId(TokenText(id, secret)) == Some(id)
      ensures ok ==> forall required, t | Scoped(tokens[|tokens| - 1].scopes, required) && (lifetime == 0 || t < now + lifetime) ::
                Accepted(TokenText(id, secret), id, required, t)
      ensures ok ==>
                var r := tokens[|tokens| - 1];
                r.id == id && r.name == name && r.createdAt == now && r.lastUseAt == 0
      ensures ok ==> forall text, required, t ::
                Accepted(text, id, required, t) <==>
                digest(text) == digest(TokenText(id, secret)) && Covers(scopes, required) && Lives(lifetime, now, t)
    {
      var token := TokenText(id, secret);
      if !ValidName(name) || lifetime < 0 || lifetime > YEAR { return false; }
      var r := Record(name, scopes, lifetime, id, token, now);
      if |tokens| >= MAX_TOKENS || !ValidToken(r) || !persists { return false; }
      tokens := tokens + [r];
      TokenTextNamesId(id, secret);
      forall required, t | Scoped(r.scopes, required) && (lifetime == 0 || t < now + lifetime)
        ensures Accepted(token, id, required, t)
      {
        assert Accepts(tokens[|tokens| - 1], token, id, required, t);
      }
      forall text, required, t
        ensures Accepted(text, id, required, t) <==> digest(text) == digest(token) && Covers(scopes, required) && Lives(lifetime, now, t)
      {
        assert Accepts(tokens[|tokens| - 1], text, id, required, t) <==>
               digest(text) == digest(token) && Covers(scopes, required) && Lives(lifetime, now, t);
      }
      ok := true;
    }

    /** A restart: the records are in the store, the buckets are gone. */
    method Restart(now: Time)
      requires Valid() && clock <= now
      modifies this`rates, this`history, this`clock
      ensures Valid() && clock == now
      ensures rates == map[] && history == AllLost(old(history), now)
    {
      TracksRestart(rates, history, clock, now);
      rates, history, clock := map[], AllLost(history, now), now;
    }

    /** The bucket goes whether or not the store was reached; the record only if it was. */
    method Revoke(id: string, now: Time, persists: bool) returns (ok: bool)
      requires Valid() && clock <= now
      modifies this
      ensures Valid() && clock == now
      ensures ok <==> persists
      ensures ok ==> revoked == old(revoked) + {id} && forall r :: r in tokens <==> r in old(tokens) && r.id != id
      ensures !ok ==> tokens == old(tokens) && revoked == old(revoked)
      ensures history == old(history)[id := History(old(history), id) + [Reset(now, Revocation)]]
    {
      ok := persists;
      if persists {
        var kept: seq<AgentToken> := [];
        for i := 0 to |tokens|
          invariant TokensValid(kept) && |kept| <= i
          invariant forall r :: r in kept <==> r in tokens[..i] && r.id != id
        {
          if tokens[i].id != id {
            assert forall j | 0 <= j < |kept| :: kept[j] in kept;
            kept := kept + [tokens[i]];
          }
        }
        assert tokens[..|tokens|] == tokens;
        tokens := kept;
        revoked := revoked + {id};
      }
      TracksEvent(rates, history, clock, id, Reset(now, Revocation));
      rates := rates - {id};
      history := history[id := History(history, id) + [Reset(now, Revocation)]];
      clock := now;
    }

    /** One stored call with an accepted token. */
    method CallOnce(token: string, id: string, t: Time) returns (ok: bool)
      requires Valid() && clock <= t && TokenId(token) == Some(id) && Accepted(token, id, READ, t)
      modifies this
      ensures ok <==> Granted(Replay(History(old(history), id)), t)
      ensures Replay(History(history, id)) == Some(AfterCall(Replay(History(old(history), id)), t))
      ensures Valid() && clock <= t && revoked == old(revoked) && Accepted(token, id, READ, t)
    {
      hide TokensValid, Tracks, Replay, Granted;
      ghost var before := History(history, id);
      ghost var at :| 0 <= at < |tokens| && Accepts(tokens[at], token, id, READ, t);
      Appended(before, Call(t), 0);
      ok := Authorize(token, READ, t, true);
      assert Accepts(tokens[at], token, id, READ, t);
      assert History(history, id) == before + [Call(t)];
    }

    /** A revocation that does not reach the store, or a restart. */
    method LoseBucket(cause: Cause, id: string, t: Time)
      requires Valid() && clock <= t
      modifies this
      ensures Valid() && clock <= t && revoked == old(revoked) && tokens == old(tokens)
      ensures Replay(History(history, id)).None?
    {
      if cause.Revocation? {
        Appended(History(history, id), Reset(t, Revocation), 0);
        var stored := Revoke(id, t, false);
      } else {
        if id in history { Appended(history[id], Reset(t, Cause.Restart), 0); }
        Restart(t);
      }
    }

    /** Twenty calls from a full bucket. */
    method Burst(token: string, id: string, t: Time) returns (granted: nat)
      requires Valid() && clock <= t && TokenId(token) == Some(id) && Accepted(token, id, READ, t)
      requires Replay(History(history, id)).None?
      modifies this
      ensures granted == 20
      ensures Valid() && clock <= t && revoked == old(revoked) && Accepted(token, id, READ, t)
    {
      hide TokensValid, Tracks, Replay;
      granted := 0;
      for i := 0 to 20
        invariant granted == i
        invariant Valid() && clock <= t && revoked == old(revoked) && Accepted(token, id, READ, t)
        invariant Replay(History(history, id)) == if i == 0 then None else Some(Bucket(BURST - i as real, t))
      {
        var ok := CallOnce(token, id, t);
        if ok { granted := granted + 1; }
      }
    }

    /** Any run of requests, with the calls that were authorized: none was by a token that had been
        revoked before, or after the token's end; and no record changes but in its last use. */
    method Run(requests: seq<Request>) returns (authorized: seq<Authorized>)
      requires Valid()
      modifies this
      ensures Valid() && old(revoked) <= revoked && SameTerms(old(tokens), tokens, revoked)
      ensures forall i | 0 <= i < |authorized| ::
                && authorized[i].id !in old(revoked)
                && forall r | r in old(tokens) && r.id == authorized[i].id :: Unexpired(r, authorized[i].at)
    {
      authorized := [];
      ghost var start := tokens;
      SameTermsAtStart(tokens, revoked);
      for i := 0 to |requests|
        invariant Valid() && old(revoked) <= revoked && SameTerms(start, tokens, revoked)
        invariant forall j | 0 <= j < |authorized| :: authorized[j].id !in old(revoked)
        invariant forall j | 0 <= j < |authorized| :: Timely(start, authorized[j])
      {
        var q := requests[i];
        if q.at >= clock {                   // the clock does not go backwards
          var granted := Serve(q, start);
          if granted.Some? { authorized := authorized + [granted.value]; }
        }
      }
    }

    /** One request; the records known at the start keep their terms. */
    method Serve(q: Request, ghost start: seq<AgentToken>) returns (granted: Option<Authorized>)
      requires Valid() && clock <= q.at && SameTerms(start, tokens, revoked)
      modifies this
      ensures Valid() && old(revoked) <= revoked && SameTerms(start, tokens, revoked)
      ensures granted.Some? ==> granted.value.id !in old(revoked) && Timely(start, granted.value)
    {
      hide SameTerms, Tracks, UsedOnce, Unexpired;
      granted := None;
      ghost var before, gone := tokens, revoked;
      var ok;
      match q {
        case Use(token, required, at, persists) =>
          ok := Authorize(token, required, at, persists);
          if ok {
            granted := Some(Authorized(token[3..35], at));
            SameTermsUsed(start, before, tokens, revoked, token[3..35], at);
          }
        case Issue(name, scopes, lifetime, id, secret, at, persists) =>
          // fresh identifiers do not repeat
          if |secret| == 43 && id !in revoked && forall j | 0 <= j < |tokens| :: tokens[j].id != id {
            ok := Create(name, scopes, lifetime, id, secret, at, persists);
            if ok { SameTermsIssued(start, before, tokens[|tokens| - 1], revoked); }
          }
        case Withdraw(id, at, persists) =>
          ok := Revoke(id, at, persists);
          if ok { SameTermsRevoked(start, before, tokens, gone, id); }
        case Reboot(at) =>
          Restart(at);
      }
    }
  }

  /** An authorized call. */
  datatype Authorized = Authorized(id: string, at: Time)

  ghost predicate Timely(start: seq<AgentToken>, call: Authorized) {
    forall r | r in start && r.id == call.id :: Unexpired(r, call.at)
  }

  /** A run of the manager that reaches the bound: at one instant a burst of 20 calls, and
      another one after every loss of the bucket. */
  method Spree(digest: string -> string, id: string, secret: string, causes: seq<Cause>, t: Time) returns (granted: nat)
    requires |secret| == 43 && ValidId(id) && ValidHash(digest(TokenText(id, secret))) && t >= 0
    ensures granted == 20 * (|causes| + 1)
  {
    var m := new Manager(digest, []);
    assert ValidToken(m.Record("bot", [READ], 0, id, TokenText(id, secret), t));
    var created := m.Create("bot", [READ], 0, id, secret, t, true);
    assert created && Scoped(m.tokens[|m.tokens| - 1].scopes, READ);
    granted := m.Burst(TokenText(id, secret), id, t);
    for i := 0 to |causes|
      invariant fresh(m) && m.Valid() && m.clock <= t && id !in m.revoked && TokenId(TokenText(id, secret)) == Some(id)
      invariant m.Accepted(TokenText(id, secret), id, READ, t)
      invariant granted == 20 * (i + 1)
    {
      m.LoseBucket(causes[i], id, t);
      var more := m.Burst(TokenText(id, secret), id, t);
      granted := granted + more;
    }
  }

  datatype Request =
    | Use(token: string, required: string, at: Time, persists: bool)
    | Issue(name: string, scopes: seq<string>, lifetime: int, id: string, secret: string, at: Time, persists: bool)
    | Withdraw(id: string, at: Time, persists: bool)
    | Reboot(at: Time)
}
