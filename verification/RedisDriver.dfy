/** The in-place server driven through whole runs. */
module RedisDriver {
  import opened Base
  import opened RedisScripts
  import opened RedisServer
  import opened RedisRuns

  lemma StepStore(auth: Authorization, h: History, a: Action)
    ensures Step(auth, h, a).store == Act(auth, h.store, a).0
  {
    hide Act;
  }

  lemma RunSnoc(auth: Authorization, start: int, actions: seq<Action>, i: nat)
    requires i < |actions|
    ensures Run(auth, start, actions[..i + 1]).store == Act(auth, Run(auth, start, actions[..i]).store, actions[i]).0
  {
    hide Act;
    hide Step;
    assert actions[..i + 1][..i] == actions[..i];
    StepStore(auth, Run(auth, start, actions[..i]), actions[i]);
  }

  /** Performs scripts, clock advances and losses key by key. The server ends exactly where the run of
      atomic steps does, so everything proved of every run holds of the keys updated in place. */
  method Play(auth: Authorization, start: int, actions: seq<Action>) returns (s: Server)
    ensures s.Contents() == Run(auth, start, actions).store
  {
    hide InitializeScript;
    hide ReserveScript;
    hide RevokeScript;
    hide Step;
    s := new Server(start);
    for i := 0 to |actions|
      invariant fresh(s) && s.Contents() == Run(auth, start, actions[..i]).store
    {
      RunSnoc(auth, start, actions, i);
      match actions[i] {
        case DoInitialize =>
          var _ := s.Initialize(IdentityOf(auth));
        case DoReserve(r) =>
          var _ := s.Reserve(IdentityOf(auth), r);
        case DoRevoke(r) =>
          var _ := s.Revoke(IdentityOf(auth), r);
        case Advance(to) =>
          if to > s.now {
            s.now := to;
          }
        case Lose(keys) =>
          if StateKey in keys {
            s.state := None;
          }
          if EventsKey in keys {
            s.events := None;
          }
          if MarkerKey in keys {
            s.marker := None;
          }
      }
    }
    assert actions[..|actions|] == actions;
  }
}
