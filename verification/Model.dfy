/** The durable state record and its validation. */
module Model {
  import opened Options
  import opened Text

  /** Nanoseconds since Go's zero time; IsZero is equality with 0. */
  type Time = int

  const STATE_VERSION := 1
  const MAX_MAPPINGS := 128
  const MAX_DEVICES := 64
  const MAX_SESSIONS := 64
  const MAX_TOKENS := 64
  const CONTROL_PORT := 12755

  datatype Mapping = Mapping(prefix: string, port: int, protocol: string, enabled: bool)

  datatype Device = Device(id: string, name: string, publicKey: string, createdAt: Time, acknowledgedAt: Time)

  datatype PendingDevice = PendingDevice(device: Device, privateKey: string, expiresAt: Time)

  datatype LocalSession = LocalSession(
    id: string, owner: string, tokenHash: string, createdAt: Time, lastUseAt: Time, authenticatedAt: Time, expiresAt: Time)

  datatype AgentToken = AgentToken(
    id: string, name: string, tokenHash: string, scopes: seq<string>, createdAt: Time, lastUseAt: Time, expiresAt: Time)

  datatype BootstrapWindow = BootstrapWindow(token: string, expiresAt: Time)

  datatype State = State(
    version: int,
    initialized: bool,
    serviceId: string,
    publication: bool,
    mappings: seq<Mapping>,
    devices: seq<Device>,
    pending: Option<PendingDevice>,
    sessions: seq<LocalSession>,
    tokens: seq<AgentToken>,
    bootstrap: Option<BootstrapWindow>)

  const NEW_STATE := State(STATE_VERSION, false, "", false, [], [], None, [], [], None)

  // ----- Field patterns -----

  predicate IsLabelChar(c: char) { IsLower(c) || IsDigit(c) || c == '-' }

  const RESERVED: set<string> := {
    "admin", "auth", "bootstrap", "ca", "control", "health", "localhost", "metrics", "onboarding", "setup", "www"
  }

  predicate ValidPrefix(v: string) {
    && 1 <= |v| <= 63
    && (forall i | 0 <= i < |v| :: IsLabelChar(v[i]))
    && v[0] != '-' && v[|v| - 1] != '-'
    && v !in RESERVED
  }

  predicate ValidMapping(m: Mapping) {
    && ValidPrefix(m.prefix)
    && 1 <= m.port <= 65535 && m.port != CONTROL_PORT
    && (m.protocol == "http" || m.protocol == "https" || m.protocol == "h2c")
  }

  predicate ValidServiceId(v: string) { IsBase32(v, 56) }

  predicate ValidId(v: string) { IsHex(v, 32) }

  predicate ValidKey(v: string) { IsBase32(v, 52) }

  predicate ValidHash(v: string) { |v| == 43 && '+' !in v && '/' !in v && '=' !in v }

  predicate ValidName(v: string) { 1 <= |v| <= 64 && Trimmed(v) }

  predicate ValidScope(v: string) { v == "mappings:read" || v == "mappings:write" }

  predicate ValidDevice(d: Device) {
    ValidId(d.id) && ValidName(d.name) && ValidKey(d.publicKey) && d.createdAt != 0 && d.acknowledgedAt != 0
  }

  /** A device awaiting acknowledgement. */
  predicate ValidPending(p: PendingDevice) {
    && ValidId(p.device.id) && ValidName(p.device.name) && ValidKey(p.device.publicKey) && ValidKey(p.privateKey)
    && p.device.createdAt != 0 && p.expiresAt > p.device.createdAt
  }

  predicate ValidSession(s: LocalSession) {
    && ValidId(s.id) && ValidHash(s.tokenHash) && s.owner != "" && s.createdAt != 0
    && s.lastUseAt >= s.createdAt && s.expiresAt > s.createdAt
  }

  predicate ValidToken(t: AgentToken) {
    && ValidId(t.id) && ValidName(t.name) && ValidHash(t.tokenHash) && |t.scopes| > 0
    && forall i | 0 <= i < |t.scopes| :: ValidScope(t.scopes[i])
  }

  // ----- Declarative validity -----

  predicate WithinBounds(s: State) {
    && s.version == STATE_VERSION
    && (s.serviceId == "" || ValidServiceId(s.serviceId))
    && (s.initialized ==> s.serviceId != "")
    && |s.mappings| <= MAX_MAPPINGS && |s.devices| <= MAX_DEVICES
    && |s.sessions| <= MAX_SESSIONS && |s.tokens| <= MAX_TOKENS
  }

  predicate MappingsValid(ms: seq<Mapping>) {
    && (forall i | 0 <= i < |ms| :: ValidMapping(ms[i]))
    && (forall i, j | 0 <= i < j < |ms| :: ms[i].prefix != ms[j].prefix)
  }

  predicate DevicesValid(ds: seq<Device>, pending: Option<PendingDevice>) {
    && (forall i | 0 <= i < |ds| :: ValidDevice(ds[i]))
    && (forall i, j | 0 <= i < j < |ds| :: ds[i].id != ds[j].id)
    && (pending.Some? ==>
          && ValidPending(pending.value)
          && (forall i | 0 <= i < |ds| :: ds[i].id != pending.value.device.id))
  }

  predicate SessionsValid(ss: seq<LocalSession>) {
    && (forall i | 0 <= i < |ss| :: ValidSession(ss[i]))
    && (forall i, j | 0 <= i < j < |ss| :: ss[i].id != ss[j].id)
  }

  predicate TokensValid(ts: seq<AgentToken>) {
    && (forall i | 0 <= i < |ts| :: ValidToken(ts[i]))
    && (forall i, j | 0 <= i < j < |ts| :: ts[i].id != ts[j].id)
  }

  predicate EndingValid(s: State) {
    && (s.bootstrap.Some? ==> ValidHash(s.bootstrap.value.token) && s.bootstrap.value.expiresAt != 0)
    && (s.publication ==> s.initialized && |s.devices| > 0)
  }

  /** What a valid state is, each kind of identifier unique on its own. */
  predicate Valid(s: State) {
    && WithinBounds(s)
    && MappingsValid(s.mappings)
    && DevicesValid(s.devices, s.pending)
    && SessionsValid(s.sessions)
    && TokensValid(s.tokens)
    && EndingValid(s)
  }

  // ----- Validation with one shared table -----

  predicate UntaggedKey(k: string) { forall i | 0 <= i < |k| :: IsLabelChar(k[i]) }

  const DEVICE_TAG := "device:"
  const SESSION_TAG := "session:"
  const TOKEN_TAG := "token:"

  /** Tagged keys never meet a prefix or a key with another tag, and keep identifiers apart. */
  lemma TagsSeparate(a: string, b: string)
    ensures DEVICE_TAG + a != SESSION_TAG + b
    ensures DEVICE_TAG + a != TOKEN_TAG + b
    ensures SESSION_TAG + a != TOKEN_TAG + b
    ensures DEVICE_TAG + a == DEVICE_TAG + b ==> a == b
    ensures SESSION_TAG + a == SESSION_TAG + b ==> a == b
    ensures TOKEN_TAG + a == TOKEN_TAG + b ==> a == b
    ensures !UntaggedKey(DEVICE_TAG + a) && !UntaggedKey(SESSION_TAG + a) && !UntaggedKey(TOKEN_TAG + a)
  {
    assert (DEVICE_TAG + a)[0] == 'd' && (SESSION_TAG + b)[0] == 's' && (TOKEN_TAG + b)[0] == 't';
    assert (SESSION_TAG + a)[0] == 's';
    assert (DEVICE_TAG + a)[6] == ':' && (SESSION_TAG + a)[7] == ':' && (TOKEN_TAG + a)[5] == ':';
    assert (DEVICE_TAG + a)[7..] == a && (DEVICE_TAG + b)[7..] == b;
    assert (SESSION_TAG + a)[8..] == a && (SESSION_TAG + b)[8..] == b;
    assert (TOKEN_TAG + a)[6..] == a && (TOKEN_TAG + b)[6..] == b;
  }

  ghost predicate Unused(tag: string, seen: set<string>) {
    forall x: string :: tag + x !in seen
  }

  lemma UntaggedLeavesTags(seen: set<string>)
    requires forall k | k in seen :: UntaggedKey(k)
    ensures Unused(DEVICE_TAG, seen) && Unused(SESSION_TAG, seen) && Unused(TOKEN_TAG, seen)
  {
    forall x: string
      ensures DEVICE_TAG + x !in seen && SESSION_TAG + x !in seen && TOKEN_TAG + x !in seen
    {
      TagsSeparate(x, x);
    }
  }

  lemma DevicesLeaveTags(taken: set<string>, ds: seq<Device>)
    requires Unused(SESSION_TAG, taken) && Unused(TOKEN_TAG, taken)
    ensures var seen := taken + (set i | 0 <= i < |ds| :: DEVICE_TAG + ds[i].id);
            Unused(SESSION_TAG, seen) && Unused(TOKEN_TAG, seen)
  {
    forall x: string
      ensures forall i | 0 <= i < |ds| :: DEVICE_TAG + ds[i].id != SESSION_TAG + x && DEVICE_TAG + ds[i].id != TOKEN_TAG + x
    {
      forall i | 0 <= i < |ds| { TagsSeparate(ds[i].id, x); }
    }
  }

  lemma SessionsLeaveTags(taken: set<string>, ss: seq<LocalSession>)
    requires Unused(TOKEN_TAG, taken)
    ensures Unused(TOKEN_TAG, taken + (set i | 0 <= i < |ss| :: SESSION_TAG + ss[i].id))
  {
    forall x: string
      ensures forall i | 0 <= i < |ss| :: SESSION_TAG + ss[i].id != TOKEN_TAG + x
    {
      forall i | 0 <= i < |ss| { TagsSeparate(ss[i].id, x); }
    }
  }

  method ValidateMappings(ms: seq<Mapping>) returns (ok: bool, seen: set<string>)
    ensures ok <==> MappingsValid(ms)
    ensures ok ==> seen == (set i | 0 <= i < |ms| :: ms[i].prefix)
    ensures ok ==> forall k | k in seen :: UntaggedKey(k)
  {
    seen := {};
    for i := 0 to |ms|
      invariant MappingsValid(ms[..i])
      invariant seen == (set j | 0 <= j < i :: ms[j].prefix)
      invariant forall k | k in seen :: UntaggedKey(k)
    {
      if !ValidMapping(ms[i]) { return false, seen; }
      if ms[i].prefix in seen { return false, seen; }
      seen := seen + {ms[i].prefix};
      assert ms[..i + 1] == ms[..i] + [ms[i]];
    }
    assert ms[..|ms|] == ms;
    ok := true;
  }

  method ValidateDevices(ds: seq<Device>, pending: Option<PendingDevice>, taken: set<string>)
    returns (ok: bool, seen: set<string>)
    requires Unused(DEVICE_TAG, taken)
    ensures ok <==> DevicesValid(ds, pending)
    ensures ok ==> seen == taken + (set i | 0 <= i < |ds| :: DEVICE_TAG + ds[i].id)
  {
    seen := taken;
    for i := 0 to |ds|
      invariant DevicesValid(ds[..i], None)
      invariant seen == taken + (set j | 0 <= j < i :: DEVICE_TAG + ds[j].id)
    {
      forall j | 0 <= j < i { TagsSeparate(ds[j].id, ds[i].id); }
      if !ValidDevice(ds[i]) || DEVICE_TAG + ds[i].id in seen { return false, seen; }
      seen := seen + {DEVICE_TAG + ds[i].id};
      assert ds[..i + 1] == ds[..i] + [ds[i]];
    }
    assert ds[..|ds|] == ds;
    ok := ValidatePending(ds, pending, taken, seen);
  }

  method ValidatePending(ds: seq<Device>, pending: Option<PendingDevice>, ghost taken: set<string>, seen: set<string>)
    returns (ok: bool)
    requires Unused(DEVICE_TAG, taken) && seen == taken + (set i | 0 <= i < |ds| :: DEVICE_TAG + ds[i].id)
    ensures ok <==> pending.Some? ==>
              ValidPending(pending.value) && forall i | 0 <= i < |ds| :: ds[i].id != pending.value.device.id
  {
    if pending.None? { return true; }
    var id := pending.value.device.id;
    forall j | 0 <= j < |ds| { TagsSeparate(ds[j].id, id); }
    ok := ValidPending(pending.value) && DEVICE_TAG + id !in seen;
  }

  method ValidateSessions(ss: seq<LocalSession>, taken: set<string>) returns (ok: bool, seen: set<string>)
    requires Unused(SESSION_TAG, taken)
    ensures ok <==> SessionsValid(ss)
    ensures ok ==> seen == taken + (set i | 0 <= i < |ss| :: SESSION_TAG + ss[i].id)
  {
    seen := taken;
    for i := 0 to |ss|
      invariant SessionsValid(ss[..i])
      invariant seen == taken + (set j | 0 <= j < i :: SESSION_TAG + ss[j].id)
    {
      forall j | 0 <= j < i { TagsSeparate(ss[j].id, ss[i].id); }
      if !ValidSession(ss[i]) { return false, seen; }
      if SESSION_TAG + ss[i].id in seen { return false, seen; }
      seen := seen + {SESSION_TAG + ss[i].id};
      assert ss[..i + 1] == ss[..i] + [ss[i]];
    }
    assert ss[..|ss|] == ss;
    ok := true;
  }

  method ValidateTokens(ts: seq<AgentToken>, taken: set<string>) returns (ok: bool)
    requires Unused(TOKEN_TAG, taken)
    ensures ok <==> TokensValid(ts)
  {
    var seen := taken;
    for i := 0 to |ts|
      invariant TokensValid(ts[..i])
      invariant seen == taken + (set j | 0 <= j < i :: TOKEN_TAG + ts[j].id)
    {
      forall j | 0 <= j < i { TagsSeparate(ts[j].id, ts[i].id); }
      if !ValidToken(ts[i]) { return false; }
      if TOKEN_TAG + ts[i].id in seen { return false; }
      seen := seen + {TOKEN_TAG + ts[i].id};
      assert ts[..i + 1] == ts[..i] + [ts[i]];
    }
    assert ts[..|ts|] == ts;
    ok := true;
  }

  /** Validation through the single shared table accepts exactly the valid states. */
  method Validate(s: State) returns (ok: bool)
    ensures ok <==> Valid(s)
  {
    if !WithinBounds(s) { return false; }
    var seen;
    ok, seen := ValidateMappings(s.mappings);
    if !ok { return; }
    UntaggedLeavesTags(seen);
    DevicesLeaveTags(seen, s.devices);
    ok, seen := ValidateDevices(s.devices, s.pending, seen);
    if !ok { return; }
    SessionsLeaveTags(seen, s.sessions);
    ok, seen := ValidateSessions(s.sessions, seen);
    if !ok { return; }
    ok := ValidateTokens(s.tokens, seen);
    if !ok { return; }
    ok := EndingValid(s);
  }
}
