/** The workers of one SSH session and the routes they install, as a value, with the invariant
    every operation of the session loop keeps (crates/fwm-core/src/engine/connection.rs, `connected`). */
module SessionState {
  import opened Addresses
  import opened Basics
  import opened ListenerLog
  import opened RemoteWorker

  /** A desired rule as the loop sees it; only remote rules have a listener at the server. */
  datatype Rule = Rule(id: string, generation: nat, running: bool, listen: Option<Socket>, verified: bool)

  datatype Route = Route(id: string, serial: nat, generation: nat)

  datatype Stage = Serving | Draining | Ended

  datatype State = State(
    dedicated: Option<string>,     // the only rule this session may carry, if it is a dedicated one
    workers: map<string, Worker>,
    routes: map<Socket, Route>,
    log: seq<Wire>,
    serials: nat,                  // workers spawned so far
    leased: set<nat>,              // those spawned for a verified rule
    severed: set<nat>,             // those whose helper went away while they were in service
    closed: bool,
    disconnected: bool,
    stage: Stage)

  /** What the engine guarantees about a group's rule list: a verified rule is alone on its session. */
  predicate RuleFits(dedicated: Option<string>, rule: Rule) {
    && (rule.verified ==> rule.listen.Some? && dedicated == Some(rule.id))
    && (dedicated.Some? ==> rule.id == dedicated.value)
  }

  predicate RulesFit(dedicated: Option<string>, rules: seq<Rule>) {
    && (forall r :: r in rules ==> RuleFits(dedicated, r))
    && (forall i, j :: 0 <= i < j < |rules| ==> rules[i].id != rules[j].id)
  }

  // ---------- the invariant ----------

  ghost predicate WorkersOk(s: State) {
    forall id :: id in s.workers ==>
      && s.workers[id].id == id && s.workers[id].serial < s.serials
      && WorkerOk(s.workers[id], ViewOf(s.log, s.workers[id].serial), s.closed, s.disconnected, s.workers[id].serial in s.severed)
      && (s.workers[id].verified <==> s.workers[id].serial in s.leased)
      && (s.workers[id].verified ==> s.dedicated == Some(id))
      && (s.dedicated.Some? ==> id == s.dedicated.value)
  }

  predicate SerialsDistinct(s: State) {
    forall a, b :: a in s.workers && b in s.workers && s.workers[a].serial == s.workers[b].serial ==> a == b
  }

  predicate Clash(a: Worker, b: Worker) {
    a.listen.Some? && b.listen.Some? && Overlaps(a.listen.value, b.listen.value)
  }

  /** No two workers compete for a listening address. */
  predicate NoClash(s: State) {
    forall a, b :: a in s.workers && b in s.workers && a != b ==> !Clash(s.workers[a], s.workers[b])
  }

  /** Every route belongs to a worker that is in service right now. */
  predicate RoutesOk(s: State) {
    forall k :: k in s.routes ==>
      && s.routes[k].id in s.workers
      && var w := s.workers[s.routes[k].id];
         w.phase.Routed? && w.listen == Some(k) && w.serial == s.routes[k].serial && w.generation == s.routes[k].generation
  }

  predicate LogOk(s: State) {
    && (forall e :: e in s.log ==> e.worker < s.serials)
    && (forall n :: n in s.leased ==> n < s.serials && Listens(s.log, n) <= VERIFIED_LISTEN_ATTEMPTS)
    && (forall n :: n in s.severed ==> n < s.serials && n in s.leased)
    && ReleasesSafe(s.log)
  }

  /** The one claim of the session belongs to the dedicated verified worker, or the session is over. */
  predicate ClaimsOk(s: State) {
    && Claims(s.log) <= 1
    && (Claims(s.log) == 1 && s.stage.Serving? ==>
          s.dedicated.Some? && s.dedicated.value in s.workers && s.workers[s.dedicated.value].verified)
    && (forall id :: id in s.workers && s.workers[id].verified && s.workers[id].phase.Starting? ==> Claims(s.log) == 0)
  }

  predicate Employed(workers: map<string, Worker>, serial: nat) {
    exists id :: id in workers && workers[id].serial == serial
  }

  /** Whoever has left the session gave its listener back, or was severed from its helper. */
  predicate LeftClean(s: State) {
    !s.closed && !s.disconnected ==>
      forall n :: 0 <= n < s.serials && !Employed(s.workers, n) ==> (Outstanding(s.log, n) <==> n in s.severed)
  }

  ghost predicate SessionOk(s: State) {
    WorkersOk(s) && SerialsDistinct(s) && NoClash(s) && RoutesOk(s) && LogOk(s) && ClaimsOk(s) && LeftClean(s)
  }

  /** While a session is neither disconnected nor closed, the server holds listeners, or is asked for them,
      for exactly these workers: those in a phase that says so, and those severed from their helper. */
  lemma ListenersAreAccountedFor(s: State, n: nat)
    requires SessionOk(s) && !s.closed && !s.disconnected
    ensures Outstanding(s.log, n) <==>
              n in s.severed || exists id :: id in s.workers && s.workers[id].serial == n && Bound(s.workers[id].phase)
  {
    if n >= s.serials {
      FreshView(s.log, n);
    } else if Employed(s.workers, n) {
      var id :| id in s.workers && s.workers[id].serial == n;
      assert WorkerOk(s.workers[id], ViewOf(s.log, n), s.closed, s.disconnected, n in s.severed);
    }
  }

  /** In particular a finished worker has nothing left at the server; and nobody finishes unasked. */
  lemma FinishedMeansGivenBack(s: State, id: string)
    requires SessionOk(s) && !s.closed && !s.disconnected && id in s.workers && s.workers[id].phase.Done?
    ensures Outstanding(s.log, s.workers[id].serial) <==> s.workers[id].serial in s.severed
    ensures s.workers[id].cancelled && (s.workers[id].serial in s.severed ==> s.workers[id].verified)
  {
    WorkerIsOk(s, id);
  }

  lemma WorkerIsOk(s: State, id: string)
    requires SessionOk(s) && id in s.workers
    ensures WorkerOk(s.workers[id], ViewOf(s.log, s.workers[id].serial), s.closed, s.disconnected, s.workers[id].serial in s.severed)
  {
  }

  // ---------- one worker moves ----------

  function ApplyRoute(routes: map<Socket, Route>, w: Worker, change: RouteChange): map<Socket, Route> {
    match (change, w.listen)
    case (Insert, Some(k)) => routes[k := Route(w.id, w.serial, w.generation)]
    case (Remove, Some(k)) => if k in routes && routes[k].generation == w.generation then routes - {k} else routes
    case _ => routes
  }

  function Deliver(s: State, id: string, step: Step, severs: bool): State
    requires id in s.workers
  {
    s.(workers := s.workers[id := step.worker], log := s.log + step.sent, routes := ApplyRoute(s.routes, s.workers[id], step.route),
       severed := if severs then s.severed + {s.workers[id].serial} else s.severed)
  }

  /** The step is one the worker may take in this session. */
  ghost predicate Due(s: State, id: string, env: Env, step: Step, severs: bool)
    requires id in s.workers
  {
    var w := s.workers[id];
    && env.closed == s.closed && env.disconnected == s.disconnected
    && StepOk(w, ViewOf(s.log, w.serial), env, w.serial in s.severed, w.serial in s.severed || severs, step)
  }

  lemma RouteIsOwn(s: State, id: string, k: Socket)
    requires NoClash(s) && RoutesOk(s) && id in s.workers && s.workers[id].listen == Some(k) && k in s.routes
    ensures s.routes[k].id == id
  {
    var other := s.routes[k].id;
    assert Overlaps(k, k);
    assert Clash(s.workers[other], s.workers[id]);
  }

  lemma DeliverKeepsWorkers(s: State, id: string, env: Env, step: Step, severs: bool)
    requires WorkersOk(s) && SerialsDistinct(s) && id in s.workers && Due(s, id, env, step, severs)
    ensures WorkersOk(Deliver(s, id, step, severs)) && SerialsDistinct(Deliver(s, id, step, severs))
  {
    var w := s.workers[id];
    var s' := Deliver(s, id, step, severs);
    AppendAll(s.log, step.sent, w.serial);
    forall g | g in s'.workers && g != id
      ensures WorkerOk(s'.workers[g], ViewOf(s'.log, s'.workers[g].serial), s'.closed, s'.disconnected, s'.workers[g].serial in s'.severed)
    {
      assert s.workers[g].serial != w.serial;
    }
  }

  lemma DeliverKeepsRoutes(s: State, id: string, env: Env, step: Step, severs: bool)
    requires NoClash(s) && RoutesOk(s) && id in s.workers && s.workers[id].id == id
    requires Due(s, id, env, step, severs)
    ensures NoClash(Deliver(s, id, step, severs)) && RoutesOk(Deliver(s, id, step, severs))
  {
    var w := s.workers[id];
    var s' := Deliver(s, id, step, severs);
    if w.listen.Some? && w.listen.value in s.routes { RouteIsOwn(s, id, w.listen.value); }
    forall k | k in s'.routes
      ensures s'.routes[k].id in s'.workers
      ensures var w' := s'.workers[s'.routes[k].id];
              w'.phase.Routed? && w'.listen == Some(k) && w'.serial == s'.routes[k].serial && w'.generation == s'.routes[k].generation
    {
    }
  }

  lemma DeliverKeepsLog(s: State, id: string, env: Env, step: Step, severs: bool)
    requires WorkersOk(s) && LogOk(s) && ClaimsOk(s) && id in s.workers
    requires Due(s, id, env, step, severs)
    ensures LogOk(Deliver(s, id, step, severs)) && ClaimsOk(Deliver(s, id, step, severs))
  {
    var w := s.workers[id];
    AppendAll(s.log, step.sent, w.serial);
    forall n | n in s.leased ensures Listens(s.log + step.sent, n) <= VERIFIED_LISTEN_ATTEMPTS {
      assert n != w.serial ==> ViewOf(s.log + step.sent, n).listens == ViewOf(s.log, n).listens;
      assert ViewOf(s.log + step.sent, w.serial) == ObserveAll(ViewOf(s.log, w.serial), step.sent);
    }
  }

  lemma SameEmployed(before: map<string, Worker>, after: map<string, Worker>, n: nat)
    requires forall id :: id in before ==> id in after && after[id].serial == before[id].serial
    ensures Employed(before, n) ==> Employed(after, n)
  {
    if Employed(before, n) {
      var id :| id in before && before[id].serial == n;
      assert id in after;
    }
  }

  lemma DeliverKeepsLeft(s: State, id: string, env: Env, step: Step, severs: bool)
    requires LeftClean(s) && WorkersOk(s) && id in s.workers && Due(s, id, env, step, severs)
    ensures LeftClean(Deliver(s, id, step, severs))
  {
    var w, s' := s.workers[id], Deliver(s, id, step, severs);
    AppendAll(s.log, step.sent, w.serial);
    hide WorkerOk, Due, Outstanding;
    forall n | 0 <= n < s'.serials && !Employed(s'.workers, n) && !s'.closed && !s'.disconnected
      ensures Outstanding(s'.log, n) <==> n in s'.severed
    {
      SameEmployed(s.workers, s'.workers, n);
      assert s'.workers[id].serial != n;
      assert ViewOf(s.log + step.sent, n).outstanding == ViewOf(s.log, n).outstanding;
    }
  }

  lemma DeliverKeepsOk(s: State, id: string, env: Env, step: Step, severs: bool)
    requires SessionOk(s) && id in s.workers && Due(s, id, env, step, severs)
    ensures SessionOk(Deliver(s, id, step, severs))
  {
    DeliverKeepsWorkers(s, id, env, step, severs);
    DeliverKeepsRoutes(s, id, env, step, severs);
    DeliverKeepsLog(s, id, env, step, severs);
    DeliverKeepsLeft(s, id, env, step, severs);
  }

  /** Whatever a worker does on being polled is due. */
  lemma StepIsDue(s: State, id: string, env: Env, input: Input)
    requires SessionOk(s) && id in s.workers && env.closed == s.closed && env.disconnected == s.disconnected && Possible(env, input)
    ensures Due(s, id, env, StepWorker(s.workers[id], env, input), Severs(s.workers[id], env, input))
    ensures StepWorker(s.workers[id], env, input).control.Report? <==>
              StepWorker(s.workers[id], env, input).worker.phase.Holding? && !s.workers[id].phase.Holding?
  {
    WorkerIsOk(s, id);
    hide SessionOk, StepWorker, WorkerOk;
    StepKeepsWorker(s.workers[id], ViewOf(s.log, s.workers[id].serial), env, s.workers[id].serial in s.severed, input);
  }

  /** The token of a worker in service fires: its route goes and its listener is asked back. */
  lemma CancelledLeavesService(s: State, id: string, env: Env, input: Input)
    requires SessionOk(s) && id in s.workers && s.workers[id].phase.Routed? && s.workers[id].cancelled
    requires !env.disconnected && !env.closed
    ensures var w, s' := s.workers[id], Deliver(s, id, StepWorker(s.workers[id], env, input), Severs(s.workers[id], env, input));
            && s'.log == s.log + [CancelSent(w.serial)] && s'.workers == s.workers[id := w.(phase := CancelWait)]
            && w.listen.Some? && w.listen.value !in s'.routes
  {
    var w := s.workers[id];
    WorkerIsOk(s, id);
    StoppedStep(w, env, input);
    OwnRouteGoes(s, id);
    hide StepWorker, Severs, Outstanding, SessionOk, Counted, ApplyRoute;
  }

  lemma OwnRouteGoes(s: State, id: string)
    requires NoClash(s) && RoutesOk(s) && id in s.workers && s.workers[id].listen.Some?
    ensures s.workers[id].listen.value !in ApplyRoute(s.routes, s.workers[id], Remove)
  {
    hide NoClash;
    if s.workers[id].listen.value in s.routes {
      RouteIsOwn(s, id, s.workers[id].listen.value);
    }
  }

  lemma StoppedStep(w: Worker, env: Env, input: Input)
    requires w.phase.Routed? && w.cancelled && !env.disconnected && !env.closed
    ensures StepWorker(w, env, input) == Step(w.(phase := CancelWait), [CancelSent(w.serial)], Remove, Quiet)
    ensures !Severs(w, env, input)
  {
  }

  /** Installing a route never overwrites one. */
  lemma InsertsNeverOverwrite(s: State, id: string, env: Env, step: Step, severs: bool)
    requires SessionOk(s) && id in s.workers
    requires Due(s, id, env, step, severs)
    ensures step.route.Insert? ==> s.workers[id].listen.Some? && s.workers[id].listen.value !in s.routes
    ensures forall k :: k in s.routes && k in Deliver(s, id, step, severs).routes ==> Deliver(s, id, step, severs).routes[k] == s.routes[k]
  {
    if step.route.Insert? && s.workers[id].listen.value in s.routes { RouteIsOwn(s, id, s.workers[id].listen.value); }
  }

  lemma PollKeepsOk(s: State, id: string, env: Env, input: Input)
    requires SessionOk(s) && id in s.workers && env.closed == s.closed && env.disconnected == s.disconnected && Possible(env, input)
    ensures var step := StepWorker(s.workers[id], env, input);
            var s' := Deliver(s, id, step, Severs(s.workers[id], env, input));
            && SessionOk(s') && (forall k :: k in s.routes && k in s'.routes ==> s'.routes[k] == s.routes[k])
            && (step.control.Report? <==> step.worker.phase.Holding? && !s.workers[id].phase.Holding?)
  {
    hide SessionOk, StepWorker, Severs, Due, ApplyRoute;
    StepIsDue(s, id, env, input);
    DeliverKeepsOk(s, id, env, StepWorker(s.workers[id], env, input), Severs(s.workers[id], env, input));
    InsertsNeverOverwrite(s, id, env, StepWorker(s.workers[id], env, input), Severs(s.workers[id], env, input));
  }

  // ---------- the loop's own moves ----------

  lemma {:induction false} FreshView(log: seq<Wire>, serial: nat)
    requires forall e :: e in log ==> e.worker < serial
    ensures ViewOf(log, serial) == View(false, 0, false, false)
    decreases |log|
  {
    if log != [] {
      assert forall e :: e in Front(log) ==> e in log;
      FreshView(Front(log), serial);
      assert Last(log) in log;
    }
  }

  function NewWorker(rule: Rule, serial: nat, cancelled: bool): Worker {
    Worker(rule.id, serial, rule.generation, rule.listen, rule.verified, cancelled, NoLease, 0,
           if rule.listen.None? then Phase.Serving else Starting)
  }

  function Spawn(s: State, rule: Rule, cancelled: bool): State {
    s.(workers := s.workers[rule.id := NewWorker(rule, s.serials, cancelled)], serials := s.serials + 1,
       leased := if rule.verified then s.leased + {s.serials} else s.leased)
  }

  lemma SpawnKeepsWorkers(s: State, rule: Rule, cancelled: bool)
    requires WorkersOk(s) && SerialsDistinct(s) && LogOk(s) && rule.id !in s.workers && RuleFits(s.dedicated, rule)
    ensures WorkersOk(Spawn(s, rule, cancelled)) && SerialsDistinct(Spawn(s, rule, cancelled))
  {
    FreshView(s.log, s.serials);
  }

  lemma SpawnKeepsRoutes(s: State, rule: Rule, cancelled: bool)
    requires NoClash(s) && RoutesOk(s) && rule.id !in s.workers
    requires !Blocked(s.workers, rule)
    ensures NoClash(Spawn(s, rule, cancelled)) && RoutesOk(Spawn(s, rule, cancelled))
  {
    var s' := Spawn(s, rule, cancelled);
    forall a, b | a in s'.workers && b in s'.workers && a != b ensures !Clash(s'.workers[a], s'.workers[b]) {
      ClashIsSymmetric(s'.workers[a], s'.workers[b]);
    }
  }

  /** Some worker holds an address the rule needs. */
  predicate Blocked(workers: map<string, Worker>, rule: Rule) {
    exists g :: g in workers && rule.listen.Some? && workers[g].listen.Some? && Overlaps(workers[g].listen.value, rule.listen.value)
  }

  lemma SpawnKeepsOk(s: State, rule: Rule, cancelled: bool)
    requires SessionOk(s) && s.stage.Serving? && rule.id !in s.workers && RuleFits(s.dedicated, rule)
    requires !Blocked(s.workers, rule)
    ensures SessionOk(Spawn(s, rule, cancelled))
  {
    hide WorkersOk, SerialsDistinct, NoClash, RoutesOk, LogOk, ClaimsOk, LeftClean, Spawn, Blocked, RuleFits;
    SpawnKeepsWorkers(s, rule, cancelled);
    SpawnKeepsRoutes(s, rule, cancelled);
    SpawnKeepsLog(s, rule, cancelled);
    SpawnKeepsLeft(s, rule, cancelled);
  }

  lemma SpawnKeepsLog(s: State, rule: Rule, cancelled: bool)
    requires LogOk(s) && ClaimsOk(s) && WorkersOk(s) && s.stage.Serving? && rule.id !in s.workers && RuleFits(s.dedicated, rule)
    ensures LogOk(Spawn(s, rule, cancelled)) && ClaimsOk(Spawn(s, rule, cancelled))
  {
    hide WorkerOk, ReleasesSafe, Claims;
    FreshView(s.log, s.serials);
    assert ViewOf(s.log, s.serials).listens == 0;
  }

  lemma SpawnKeepsLeft(s: State, rule: Rule, cancelled: bool)
    requires LeftClean(s) && LogOk(s) && rule.id !in s.workers
    ensures LeftClean(Spawn(s, rule, cancelled))
  {
    hide Outstanding, LogOk;
    var s' := Spawn(s, rule, cancelled);
    forall n | 0 <= n < s'.serials && !Employed(s'.workers, n) && !s'.closed && !s'.disconnected
      ensures Outstanding(s'.log, n) <==> n in s'.severed
    {
      SameEmployed(s.workers, s'.workers, n);
      assert s'.workers[rule.id].serial == s.serials;
    }
  }

  /** One rule of the list: skipped while it has a worker, is stopped, or its address is taken. */
  function SpawnIfFree(s: State, rule: Rule, cancelled: bool): State {
    if rule.id in s.workers || !rule.running || Blocked(s.workers, rule) then s else Spawn(s, rule, cancelled)
  }

  function SpawnAll(s: State, rules: seq<Rule>, cancelled: bool): State
    decreases |rules|
  {
    if rules == [] then s else SpawnIfFree(SpawnAll(s, rules[..|rules| - 1], cancelled), rules[|rules| - 1], cancelled)
  }

  /** A new worker for the current edition of a running rule: nothing claimed, nothing sent. */
  predicate StartedFrom(w: Worker, rules: seq<Rule>, cancelled: bool) {
    exists r :: r in rules && r.running
                && w == Worker(r.id, w.serial, r.generation, r.listen, r.verified, cancelled, NoLease, 0,
                               if r.listen.None? then Phase.Serving else Starting)
  }

  lemma {:induction false} SpawnAllKeepsOk(s: State, rules: seq<Rule>, cancelled: bool)
    requires SessionOk(s) && s.stage.Serving? && forall r :: r in rules ==> RuleFits(s.dedicated, r)
    ensures SessionOk(SpawnAll(s, rules, cancelled))
    ensures SpawnAll(s, rules, cancelled).(workers := s.workers, serials := s.serials, leased := s.leased) == s
    decreases |rules|
  {
    if rules != [] {
      var front, rule := rules[..|rules| - 1], rules[|rules| - 1];
      SpawnAllKeepsOk(s, front, cancelled);
      var before := SpawnAll(s, front, cancelled);
      if rule.id !in before.workers && rule.running && !Blocked(before.workers, rule) {
        SpawnKeepsOk(before, rule, cancelled);
      }
    }
  }

  /** Workers at hand are not replaced, whatever is new runs the current edition of its rule, and no
      running rule is left out unless somebody holds its address. */
  ghost predicate Serves(before: map<string, Worker>, after: map<string, Worker>, rules: seq<Rule>, cancelled: bool) {
    && (forall id :: id in before ==> id in after && after[id] == before[id])
    && (forall id :: id in after && id !in before ==> StartedFrom(after[id], rules, cancelled))
    && (forall r :: r in rules && r.running ==> r.id in after || Blocked(after, r))
  }

  lemma SpawnOneServes(before: map<string, Worker>, s: State, front: seq<Rule>, rule: Rule, cancelled: bool)
    requires Serves(before, s.workers, front, cancelled)
    ensures Serves(before, SpawnIfFree(s, rule, cancelled).workers, front + [rule], cancelled)
  {
    var after := SpawnIfFree(s, rule, cancelled).workers;
    forall r | r in front + [rule] && r.running ensures r.id in after || Blocked(after, r) {
      BlockedStays(s.workers, after, r);
    }
    forall id | id in after && id !in before ensures StartedFrom(after[id], front + [rule], cancelled) {
      if id !in s.workers {
        assert rule in front + [rule];
      } else {
        StartedStays(s.workers[id], front, rule, cancelled);
      }
    }
  }

  lemma StartedStays(w: Worker, front: seq<Rule>, rule: Rule, cancelled: bool)
    requires StartedFrom(w, front, cancelled)
    ensures StartedFrom(w, front + [rule], cancelled)
  {
    var r :| r in front && r.running
             && w == Worker(r.id, w.serial, r.generation, r.listen, r.verified, cancelled, NoLease, 0,
                            if r.listen.None? then Phase.Serving else Starting);
    assert r in front + [rule];
  }

  lemma {:induction false} SpawnAllServes(s: State, rules: seq<Rule>, cancelled: bool)
    ensures Serves(s.workers, SpawnAll(s, rules, cancelled).workers, rules, cancelled)
    decreases |rules|
  {
    if rules != [] {
      var front, rule := rules[..|rules| - 1], rules[|rules| - 1];
      SpawnAllServes(s, front, cancelled);
      hide Serves;
      SpawnOneServes(s.workers, SpawnAll(s, front, cancelled), front, rule, cancelled);
      assert rules == front + [rule];
    }
  }

  lemma BlockedStays(before: map<string, Worker>, after: map<string, Worker>, rule: Rule)
    requires forall id :: id in before ==> id in after && after[id] == before[id]
    ensures Blocked(before, rule) ==> Blocked(after, rule)
  {
    if Blocked(before, rule) {
      var g :| g in before && rule.listen.Some? && before[g].listen.Some? && Overlaps(before[g].listen.value, rule.listen.value);
      assert g in after;
    }
  }

  lemma ClashIsSymmetric(a: Worker, b: Worker)
    ensures Clash(a, b) <==> Clash(b, a)
  {
  }

  /** The cancellation tokens of these workers fire. */
  function Cancel(workers: map<string, Worker>, ids: set<string>): map<string, Worker> {
    map id | id in workers :: if id in ids then workers[id].(cancelled := true) else workers[id]
  }

  lemma CancelKeepsOk(s: State, ids: set<string>)
    requires SessionOk(s)
    ensures SessionOk(s.(workers := Cancel(s.workers, ids)))
  {
    CancelKeepsWorkers(s, ids);
    CancelKeepsRoutes(s, ids);
    CancelKeepsLeft(s, ids);
    hide WorkersOk, SerialsDistinct, NoClash, RoutesOk, LogOk, LeftClean;
  }

  lemma CancelKeepsLeft(s: State, ids: set<string>)
    requires LeftClean(s)
    ensures LeftClean(s.(workers := Cancel(s.workers, ids)))
  {
    hide Outstanding;
    forall n ensures Employed(s.workers, n) ==> Employed(Cancel(s.workers, ids), n) {
      SameEmployed(s.workers, Cancel(s.workers, ids), n);
    }
  }

  lemma CancelKeepsWorkers(s: State, ids: set<string>)
    requires WorkersOk(s) && SerialsDistinct(s)
    ensures WorkersOk(s.(workers := Cancel(s.workers, ids))) && SerialsDistinct(s.(workers := Cancel(s.workers, ids)))
  {
  }

  lemma CancelKeepsRoutes(s: State, ids: set<string>)
    requires NoClash(s) && RoutesOk(s)
    ensures NoClash(s.(workers := Cancel(s.workers, ids))) && RoutesOk(s.(workers := Cancel(s.workers, ids)))
  {
    var s' := s.(workers := Cancel(s.workers, ids));
    forall a, b | a in s'.workers && b in s'.workers && a != b ensures !Clash(s'.workers[a], s'.workers[b]) {
      assert !Clash(s.workers[a], s.workers[b]);
    }
  }

  function Forget(s: State, ids: set<string>): State {
    s.(workers := s.workers - ids)
  }

  /** Finished workers may be forgotten; a verified one takes the session with it. */
  lemma ForgetKeepsOk(s: State, ids: set<string>)
    requires SessionOk(s)
    requires forall id :: id in ids && id in s.workers ==> s.workers[id].phase.Done? && (s.workers[id].verified ==> !s.stage.Serving?)
    ensures SessionOk(Forget(s, ids))
  {
    ForgetKeepsWorkers(s, ids);
    ForgetKeepsLeft(s, ids);
  }

  lemma StillEmployed(s: State, ids: set<string>, id: string)
    requires id in s.workers
    ensures id in ids || Employed(Forget(s, ids).workers, s.workers[id].serial)
  {
    if id !in ids {
      assert id in Forget(s, ids).workers;
    }
  }

  lemma ForgetKeepsLeft(s: State, ids: set<string>)
    requires LeftClean(s) && WorkersOk(s) && forall id :: id in ids && id in s.workers ==> s.workers[id].phase.Done?
    ensures LeftClean(Forget(s, ids))
  {
    var s' := Forget(s, ids);
    forall n | 0 <= n < s'.serials && !Employed(s'.workers, n) && !s'.closed && !s'.disconnected
      ensures Outstanding(s'.log, n) <==> n in s'.severed
    {
      if Employed(s.workers, n) {
        var id :| id in s.workers && s.workers[id].serial == n;
        StillEmployed(s, ids, id);
        assert WorkerOk(s.workers[id], ViewOf(s.log, n), s.closed, s.disconnected, n in s.severed);
      }
    }
  }

  lemma ForgetKeepsWorkers(s: State, ids: set<string>)
    requires WorkersOk(s) && SerialsDistinct(s) && NoClash(s)
    ensures WorkersOk(Forget(s, ids)) && SerialsDistinct(Forget(s, ids)) && NoClash(Forget(s, ids))
  {
  }

  lemma CloseKeepsOk(s: State)
    requires SessionOk(s)
    ensures SessionOk(s.(closed := true)) && SessionOk(s.(disconnected := true))
  {
  }

  lemma StageKeepsOk(s: State, stage: Stage)
    requires SessionOk(s) && !stage.Serving?
    ensures SessionOk(s.(stage := stage)) && SessionOk(s.(stage := stage, routes := map[]))
  {
  }

  // ---------- incoming connections ----------

  /** How the server spells the listening address in a forwarded-tcpip open. */
  datatype Spelling = Printed(ip: Ip) | Equivalent(ip: Ip) | Unparsable

  predicate Matches(k: Socket, address: Spelling, port: nat) {
    !address.Unparsable? && k.port == port && Canonical(k.ip) == Canonical(address.ip)
  }

  lemma MatchIsUnique(s: State, j: Socket, k: Socket, address: Spelling, port: nat)
    requires SessionOk(s) && j in s.routes && k in s.routes && Matches(j, address, port) && Matches(k, address, port)
    ensures j == k
  {
    assert Overlaps(j, k);
    assert s.routes[j].id != s.routes[k].id ==> Clash(s.workers[s.routes[j].id], s.workers[s.routes[k].id]);
  }
}
