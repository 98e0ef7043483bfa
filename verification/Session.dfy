/** The session loop itself: reap finished workers, cancel unwanted ones, start missing ones,
    answer forwarded connections, drain (crates/fwm-core/src/engine/connection.rs, `connected`). */
module Session {
  import opened Addresses
  import opened Basics
  import opened ListenerLog
  import opened RemoteWorker
  import opened SessionState

  class Connection {
    const hasIdentity: bool
    const dedicated: Option<string>
    var workers: map<string, Worker>
    var routes: map<Socket, Route>
    var log: seq<Wire>
    var serials: nat
    ghost var leased: set<nat>
    ghost var severed: set<nat>
    var cancelled: bool       // the supervisor's own token, parent of every worker's
    var disconnected: bool
    var closed: bool
    var stage: Stage

    ghost function Now(): State
      reads this
    {
      State(dedicated, workers, routes, log, serials, leased, severed, closed, disconnected, stage)
    }

    ghost predicate Valid()
      reads this
    {
      SessionOk(Now())
    }

    constructor (hasIdentity: bool, dedicated: Option<string>)
      ensures Valid() && workers == map[] && routes == map[] && log == [] && stage.Serving?
      ensures !cancelled && !disconnected && !closed
      ensures this.hasIdentity == hasIdentity && this.dedicated == dedicated
    {
      this.hasIdentity := hasIdentity;
      this.dedicated := dedicated;
      workers, routes, log, serials, leased, severed := map[], map[], [], 0, {}, {};
      cancelled, disconnected, closed, stage := false, false, false, Stage.Serving;
    }

    /** One worker is polled. It is severed exactly if it was in service for a verified rule and its helper's
        channel closed; cancelled in service, it leaves its route and asks for its listener back. */
    method Poll(id: string, input: Input) returns (reported: bool)
      requires Valid() && id in workers && !stage.Ended?
      modifies this`workers, this`routes, this`log, this`closed, this`severed
      ensures Valid()
      ensures closed == (old(closed) || input == Reply(Lost))
      ensures var w := old(workers[id]);
              severed == if w.phase.Routed? && !w.cancelled && !disconnected && w.verified && input.HelperClosed? then old(severed) + {w.serial}
                         else old(severed)
      ensures var w := old(workers[id]);
              var step := StepWorker(w, Env(disconnected, closed, hasIdentity), input);
              Now() == Deliver(old(Now()).(closed := closed), id, step, Severs(w, Env(disconnected, closed, hasIdentity), input))
      ensures reported <==> workers[id].phase.Holding? && !old(workers[id]).phase.Holding?
      ensures forall k :: k in old(routes) && k in routes ==> routes[k] == old(routes)[k]
      ensures var w := old(workers[id]);
              w.phase.Routed? && w.cancelled && !disconnected && !closed ==>
                log == old(log) + [CancelSent(w.serial)] && workers == old(workers)[id := w.(phase := CancelWait)]
                && w.listen.Some? && w.listen.value !in routes
    {
      hide SessionOk, StepWorker, WorkerOk, StepOk, Due, ApplyRoute;
      if input == Reply(Lost) {
        CloseKeepsOk(Now());
        closed := true;
      }
      var w := workers[id];
      var env := Env(disconnected, closed, hasIdentity);
      var step := StepWorker(w, env, input);
      if w.phase.Routed? && w.cancelled && !disconnected && !closed {
        CancelledLeavesService(Now(), id, env, input);
      }
      PollKeepsOk(Now(), id, env, input);
      if Severs(w, env, input) {
        severed := severed + {w.serial};
      }
      workers, log, routes := workers[id := step.worker], log + step.sent, ApplyRoute(routes, w, step.route);
      reported := step.control.Report?;
    }

    /** Finished workers leave the map; a verified one retires the whole session. */
    method Reap() returns (retire: bool)
      requires Valid() && stage.Serving?
      modifies this`workers, this`stage
      ensures Valid()
      ensures forall id :: id in workers <==> id in old(workers) && !old(workers)[id].phase.Done?
      ensures forall id :: id in workers ==> workers[id] == old(workers)[id]
      ensures retire <==> exists id :: id in old(workers) && old(workers)[id].phase.Done? && old(workers)[id].verified
      ensures stage == if retire then Draining else Stage.Serving
    {
      hide SessionOk;
      var finished := set id | id in workers && workers[id].phase.Done?;
      retire := exists id :: id in finished && workers[id].verified;
      if retire {
        StageKeepsOk(Now(), Draining);
        stage := Draining;
      }
      ForgetKeepsOk(Now(), finished);
      Remove(finished);
    }

    method Remove(finished: set<string>)
      modifies this`workers
      ensures workers == old(workers) - finished
    {
      var left := finished;
      while left != {}
        invariant left <= finished && workers == old(workers) - (finished - left)
        decreases |left|
      {
        var id :| id in left;
        workers := workers - {id};
        left := left - {id};
      }
    }

    /** Their tokens fire one after the other. */
    method CancelEach(ids: set<string>)
      modifies this`workers
      ensures workers == Cancel(old(workers), ids)
    {
      var left := ids;
      while left != {}
        invariant left <= ids && workers == Cancel(old(workers), ids - left)
        decreases |left|
      {
        var id :| id in left;
        if id in workers {
          workers := workers[id := workers[id].(cancelled := true)];
        }
        left := left - {id};
      }
    }

    /** The list still asks for this very edition. */
    static ghost predicate StillWanted(w: Worker, rules: seq<Rule>) {
      exists r :: r in rules && r.id == w.id && r.running && r.generation == w.generation
    }

    /** A worker is stale when its rule is gone, stopped or has another generation. */
    static predicate Stale(w: Worker, rules: seq<Rule>) {
      forall r :: r in rules && r.id == w.id ==> r.generation != w.generation || !r.running
    }

    method CancelStale(rules: seq<Rule>)
      requires Valid()
      modifies this`workers
      ensures Valid() && workers.Keys == old(workers).Keys
      ensures forall id :: id in workers ==>
                workers[id] == if StillWanted(old(workers)[id], rules) then old(workers)[id] else old(workers)[id].(cancelled := true)
    {
      var stale := set id | id in workers && Stale(workers[id], rules);
      CancelKeepsOk(Now(), stale);
      CancelEach(stale);
    }

    /** A rule starts only when it has no worker and nobody else holds an overlapping address. */
    method SpawnOne(rule: Rule)
      modifies this`workers, this`serials, this`leased
      ensures Now() == SpawnIfFree(old(Now()), rule, cancelled)
    {
      if rule.id in workers || !rule.running || Blocked(workers, rule) {
        return;
      }
      if rule.verified {
        leased := leased + {serials};
      }
      workers, serials := workers[rule.id := NewWorker(rule, serials, cancelled)], serials + 1;
    }

    method SpawnMissing(rules: seq<Rule>)
      requires Valid() && stage.Serving? && RulesFit(dedicated, rules)
      modifies this`workers, this`serials, this`leased
      ensures Valid() && Now() == SpawnAll(old(Now()), rules, cancelled)
      ensures forall id :: id in old(workers) ==> id in workers && workers[id] == old(workers)[id]
      ensures forall id :: id in workers && id !in old(workers) ==> StartedFrom(workers[id], rules, cancelled)
      ensures forall r :: r in rules && r.running ==> r.id in workers || Blocked(workers, r)
    {
      SpawnAllKeepsOk(Now(), rules, cancelled);
      SpawnAllServes(Now(), rules, cancelled);
      SpawnEach(rules);
    }

    method SpawnEach(rules: seq<Rule>)
      modifies this`workers, this`serials, this`leased
      ensures Now() == SpawnAll(old(Now()), rules, cancelled)
    {
      for i := 0 to |rules|
        invariant Now() == SpawnAll(old(Now()), rules[..i], cancelled)
      {
        SpawnOne(rules[i]);
        assert rules[..i + 1][..i] == rules[..i];
      }
      assert rules[..|rules|] == rules;
    }

    /** Cancel what is stale, then start what is missing. */
    method Renew(rules: seq<Rule>)
      requires Valid() && stage.Serving? && RulesFit(dedicated, rules)
      modifies this`workers, this`serials, this`leased
      ensures Valid()
      ensures forall id :: id in old(workers) ==>
                id in workers && workers[id] == old(workers)[id].(cancelled := old(workers)[id].cancelled || !StillWanted(old(workers)[id], rules))
      ensures forall id :: id in workers && id !in old(workers) ==> StartedFrom(workers[id], rules, cancelled)
      ensures forall r :: r in rules && r.running ==> r.id in workers || Blocked(workers, r)
    {
      CancelStale(rules);
      SpawnMissing(rules);
    }

    /** Leave the loop: no more callbacks, everybody is told to stop. */
    method BeginDrain(failed: bool)
      requires Valid() && !stage.Ended?
      modifies this`workers, this`routes, this`disconnected, this`stage
      ensures Valid() && stage.Draining? && routes == map[]
      ensures disconnected == (old(disconnected) || failed || closed)
      ensures workers.Keys == old(workers).Keys
      ensures forall id :: id in workers ==> workers[id] == old(workers)[id].(cancelled := true)
    {
      StageKeepsOk(Now(), Draining);
      stage, routes := Draining, map[];
      CloseKeepsOk(Now());
      disconnected := disconnected || failed || closed;
      CancelAll();
    }

    method CancelAll()
      requires Valid()
      modifies this`workers
      ensures Valid() && workers.Keys == old(workers).Keys
      ensures forall id :: id in workers ==> workers[id] == old(workers)[id].(cancelled := true)
    {
      CancelKeepsOk(Now(), workers.Keys);
      CancelEach(workers.Keys);
    }

    /** One turn of the loop over a snapshot of the desired rules; `done` says it broke out. */
    method Iterate(rules: seq<Rule>) returns (done: bool)
      requires Valid() && stage.Serving? && RulesFit(dedicated, rules)
      modifies this
      ensures Valid() && done == stage.Draining? && !stage.Ended?
      ensures done <==> cancelled || closed || workers == map[]
                        || exists id :: id in old(workers) && old(workers)[id].phase.Done? && old(workers)[id].verified
      ensures done ==> routes == map[] && disconnected == (old(disconnected) || closed) && forall id :: id in workers ==> workers[id].cancelled
      ensures !done ==> routes == old(routes) && disconnected == old(disconnected)
      ensures log == old(log) && closed == old(closed) && cancelled == old(cancelled)
      ensures forall id :: id in old(workers) && !old(workers)[id].phase.Done? ==>
                id in workers && workers[id] == old(workers)[id].(cancelled := workers[id].cancelled)
      ensures !done ==> forall id :: id in old(workers) && !old(workers)[id].phase.Done? ==>
                workers[id].cancelled == (old(workers)[id].cancelled || !StillWanted(old(workers)[id], rules))
      ensures !done ==> forall id :: id in workers && (id !in old(workers) || old(workers)[id].phase.Done?) ==> StartedFrom(workers[id], rules, cancelled)
      ensures !done ==> forall r :: r in rules && r.running ==> r.id in workers || Blocked(workers, r)
    {
      if cancelled {
        BeginDrain(false);
        return true;
      }
      var retire := Reap();
      if retire {
        BeginDrain(false);
        return true;
      }
      Renew(rules);
      if closed {
        BeginDrain(true);
        return true;
      }
      if workers == map[] {
        BeginDrain(false);
        return true;
      }
      done := false;
    }

    /** The supervisor's token fires; worker tokens are its children. */
    method CancelSupervisor()
      requires Valid()
      modifies this`workers, this`cancelled
      ensures Valid() && cancelled && workers.Keys == old(workers).Keys
      ensures forall id :: id in workers ==> workers[id] == old(workers)[id].(cancelled := true)
    {
      cancelled := true;
      CancelAll();
    }

    method LoseTransport()
      requires Valid()
      modifies this`closed
      ensures Valid() && closed
    {
      CloseKeepsOk(Now());
      closed := true;
    }

    /** The drain deadline passed: every remaining worker is aborted with its session. */
    method End()
      requires Valid() && stage.Draining?
      modifies this`disconnected, this`stage
      ensures Valid() && disconnected && stage.Ended?
    {
      StageKeepsOk(Now(), Ended);
      stage := Ended;
      CloseKeepsOk(Now());
      disconnected := true;
    }

    /** `server_channel_open_forwarded_tcpip`: exact spelling first, then any equivalent spelling,
        scanned in whatever order the hash map happens to yield. */
    method FindRoute(order: seq<Socket>, address: Spelling, port: nat) returns (found: Option<Route>)
      requires Valid() && forall k :: k in order <==> k in routes
      ensures forall k :: k in routes && Matches(k, address, port) ==> found == Some(routes[k])
      ensures found.Some? ==> exists k :: k in routes && Matches(k, address, port) && found.value == routes[k]
    {
      ghost var s := Now();
      hide SessionOk;
      forall j, k | j in routes && k in routes && Matches(j, address, port) && Matches(k, address, port) ensures j == k {
        MatchIsUnique(s, j, k, address, port);
      }
      if address.Printed? && Socket(address.ip, port) in routes {
        assert Matches(Socket(address.ip, port), address, port);
        return Some(routes[Socket(address.ip, port)]);
      }
      for i := 0 to |order|
        invariant forall j :: 0 <= j < i ==> !Matches(order[j], address, port)
      {
        assert order[i] in order;
        if Matches(order[i], address, port) {
          return Some(routes[order[i]]);
        }
      }
      found := None;
    }

    /** A connection is bridged only for a worker in service whose listener was granted and, for a
        verified rule, confirmed by the helper. */
    method Accept(order: seq<Socket>, address: Spelling, port: nat) returns (accepted: Option<string>)
      requires Valid() && forall k :: k in order <==> k in routes
      ensures accepted.Some? ==>
                && accepted.value in workers
                && var w := workers[accepted.value];
                   && w.phase.Routed? && !w.cancelled && w.listen.Some? && Matches(w.listen.value, address, port)
                   && ListenGranted(w.serial) in log && (w.verified ==> Confirmed(w.serial) in log)
      ensures forall k :: k in routes && Matches(k, address, port) ==>
                accepted == if workers[routes[k].id].cancelled then None else Some(routes[k].id)
    {
      var route := FindRoute(order, address, port);
      if route.None? || workers[route.value.id].cancelled {
        return None;
      }
      accepted := Some(route.value.id);
    }
  }
}
