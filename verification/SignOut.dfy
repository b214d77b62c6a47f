/** Identity rotation and the sessions in the store. */
module SignOut {
  import opened Options
  import opened Identity
  import opened Control
  import Sessions

  /** A committed rotation signs every cookie out, and no later run of requests brings one of
      them back. */
  method RotateAndSignOut(m: Manager, sessions: Sessions.Manager, n: nat, generated: Files, secrets: seq<string>, f: RotateFate,
                          later: seq<Sessions.Request>)
    returns (r: Reply, authenticated: seq<string>)
    requires m.Agree() && IdOf(generated) != Some(m.store.memory.serviceId)
    requires sessions.Valid() && sessions.sessions == m.store.memory.sessions
    modifies m`identity, m.run, m.run.disk, m.store, m.store.file, sessions
    ensures r.Committed? ==> forall i | 0 <= i < |authenticated| :: authenticated[i] !in old(sessions.uses)
  {
    var cs;
    r, cs := m.RotateIdentity(true, n, generated, secrets, f);
    authenticated := [];
    if r.Committed? {
      sessions.SignedOut(m.store.memory.sessions);
      authenticated := sessions.Run(later);
    }
  }
}
