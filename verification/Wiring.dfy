/** Where the engine's promises become the session loop's assumptions: a group's watch channel is the
    rule list a session works from (crates/fwm-core/src/engine/mod.rs, connection.rs). */
module Wiring {
  import opened Basics
  import opened Configuration
  import opened EngineState
  import SessionState

  /** A queued rule as the session loop sees it. */
  function ToSession(r: Rule): SessionState.Rule {
    SessionState.Rule(r.spec.id, r.generation, r.spec.running, if IsRemote(r.spec.tunnel) then Some(r.spec.tunnel.listen) else None, r.spec.verified)
  }

  function Desired(queue: seq<Rule>): (r: seq<SessionState.Rule>)
    ensures |r| == |queue| && forall i :: 0 <= i < |r| ==> r[i] == ToSession(queue[i])
  {
    seq(|queue|, i requires 0 <= i < |queue| => ToSession(queue[i]))
  }

  /** Whatever list the engine queues for a session is one the session may be given: no rule twice, and a
      verified rule alone on a session that is its own. */
  lemma QueuesFitSessions(s: State, key: Key)
    requires Sane(s) && key in s.groups
    ensures SessionState.RulesFit(key.dedicated, Desired(s.groups[key].queue))
  {
    var queue := s.groups[key].queue;
    forall r | r in Desired(queue) ensures SessionState.RuleFits(key.dedicated, r) {
      var i :| 0 <= i < |queue| && r == ToSession(queue[i]);
      assert InStep(s.statuses, key, queue[i]);
    }
  }

  /** Two sessions never carry the same rule: it sits under one key, and relays have keys of their own. */
  lemma OneSupervisorPerRule(s: State, a: Key, b: Key, r: Rule, q: Rule)
    requires Sane(s) && a in s.groups && b in s.groups && r in s.groups[a].queue
    requires q in s.groups[b].queue && r.spec.id == q.spec.id
    ensures a == b && r == q && r.spec.id !in s.relays
  {
    assert InStep(s.statuses, a, r) && InStep(s.statuses, b, q);
    var i :| 0 <= i < |s.groups[a].queue| && s.groups[a].queue[i] == r;
    var j :| 0 <= j < |s.groups[a].queue| && s.groups[a].queue[j] == q;
  }

  /** The counter is a plain 64-bit increment: a rule admitted after it has passed the largest value
      gets a number that was given out at the very start. */
  lemma OverflowStartsAgain(p: Plan, servers: seq<Server>, retry: Retry, prints: Prints, b: Forward, c: Forward)
    requires Ready(servers, prints, b) && Ready(servers, prints, c) && b.id != c.id
    requires b.id !in p.statuses && c.id !in p.statuses && p.generation == U64_MAX && 1 in p.issued
    ensures var q := AdmitAll(p, servers, retry, prints, [b, c]);
            q.wrapped && c.id in q.statuses && q.statuses[c.id].generation in p.issued
  {
    var once := AdmitAll(p, servers, retry, prints, [b]);
    assert [b, c][..1] == [b] && [b][..0] == [];
    assert AdmitAll(p, servers, retry, prints, []) == p;
    assert once == Admit(p, servers, retry, prints, b);
    assert once.generation == 0;
  }
}
