/** Whole stretches of runs: what a helper does when nobody interferes, and runs in which the protocol
    accepts something it cannot tell from what it is meant to accept. */
module LeaseRuns {
  import opened Basics
  import opened Recovery
  import opened LeaseWorld
  import opened LeaseSafety

  // ---------- runs from a world on ----------

  ghost function RunFrom(w: World, actions: seq<Action>): World
    decreases |actions|
  {
    if actions == [] then w else RunFrom(Apply(w, actions[0]), actions[1..])
  }

  lemma {:induction false} RunSplits(before: seq<Action>, actions: seq<Action>)
    ensures Run(before + actions) == RunFrom(Run(before), actions)
    decreases |actions|
  {
    if actions == [] {
      assert before + actions == before;
    } else {
      var a := actions[0];
      assert (before + [a])[..|before|] == before;
      assert before + actions == (before + [a]) + actions[1..];
      hide Apply;
      RunSplits(before + [a], actions[1..]);
    }
  }

  lemma {:induction false} RunFromSplits(w: World, actions: seq<Action>, more: seq<Action>)
    ensures RunFrom(w, actions + more) == RunFrom(RunFrom(w, actions), more)
    decreases |actions|
  {
    hide Apply;
    if actions == [] {
      assert actions + more == more;
    } else {
      RunFromSplits(Apply(w, actions[0]), actions[1..], more);
      assert (actions + more)[1..] == actions[1..] + more;
    }
  }

  /** The helper takes `n` steps under the same answers of the environment. */
  function Steps(h: Identity, o: Oracle, n: nat): seq<Action> {
    if n == 0 then [] else [Advance(h, o)] + Steps(h, o, n - 1)
  }

  lemma OneStep(w: World, h: Identity, o: Oracle, n: nat)
    requires n > 0
    ensures RunFrom(w, Steps(h, o, n)) == RunFrom(Apply(w, Advance(h, o)), Steps(h, o, n - 1))
  {
    hide Apply;
    assert Steps(h, o, n)[1..] == Steps(h, o, n - 1);
  }

  lemma NoSteps(w: World, h: Identity, o: Oracle)
    ensures RunFrom(w, Steps(h, o, 0)) == w
  {
  }

  /** An environment that fails nothing, and one whose bind fails for want of a descriptor, say. */
  const CALM: Oracle := Oracle(false, false, false, false, false, false, Written)

  const NO_BIND: Oracle := CALM.(bindError := true)

  // ---------- a helper that is let alone ----------

  function With(w: World, h: Identity, s: Helper): World {
    w.(helpers := w.helpers[h := s])
  }

  /** The helper is in this state and holds the lock of its rule. */
  function Holding(w: World, h: Identity, s: Helper): World {
    w.(helpers := w.helpers[h := s], locks := w.locks[KeyOf(s.claim) := h])
  }

  predicate SameView(w: World, w': World) {
    && w'.procs == w.procs && w'.listeners == w.listeners && w'.connections == w.connections
    && w'.fds == w.fds && w'.hidden == w.hidden && w'.records == w.records
  }

  lemma SameListing(w: World, w': World, host: nat, port: nat)
    requires w'.listeners == w.listeners
    ensures FindListener(w', host, port) == FindListener(w, host, port)
  {
  }

  lemma SameOldListener(w: World, w': World, s: Helper, o: Oracle)
    requires SameView(w, w') && s.self.Known? && Checking(s.pc)
    ensures DecideOldListener(w', s, o) == DecideOldListener(w, s, o)
  {
    SameListing(w, w', s.pc.prior.claim.host, s.pc.prior.claim.port);
    hide FindListener;
  }

  lemma SameAddress(w: World, w': World, claim: Claim, pc: Pc, o: Oracle)
    requires SameView(w, w')
    ensures DecideAddress(w', claim, pc, o) == DecideAddress(w, claim, pc, o)
  {
    SameListing(w, w', claim.host, claim.port);
    hide FindListener;
  }

  /** A claim decides by what it sees of processes, sockets and records, and by nothing else. */
  lemma SameDecision(w: World, w': World, s: Helper, o: Oracle)
    requires SameView(w, w') && s.self.Known?
    ensures DecideClaim(w', s, o) == DecideClaim(w, s, o)
  {
    hide DecideOldListener, DecideAddress;
    SameAddress(w, w', s.claim, s.pc, o);
    if Checking(s.pc) {
      SameOldListener(w, w', s, o);
    }
  }

  predicate ClaimStep(pc: Pc) {
    pc.ClaimRead? || Checking(pc) || pc.NewAddress? || pc.NewProbe? || Pinning(pc) || PriorGone(pc) || NoPrior(pc)
  }

  lemma DecideIsClaim(w: World, s: Helper, o: Oracle)
    requires s.self.Known? && ClaimStep(s.pc) && !Writing(s.pc)
    ensures Deciding(s.pc) && Decide(w, s, o) == DecideClaim(w, s, o)
  {
    hide DecideClaim, DecideConfirm;
  }

  lemma DecisionTaken(w: World, h: Identity, o: Oracle)
    requires Running(w, h) && Deciding(w.helpers[h].pc)
    ensures Apply(w, Advance(h, o)) == Perform(w, h, Decide(w, w.helpers[h], o))
  {
    hide Decide, Effect, Perform, Deciding;
  }

  lemma HoldingOn(w: World, h: Identity, s: Helper, next: Pc)
    ensures Goto(Holding(w, h, s), h, next) == Holding(w, h, s.(pc := next))
  {
    assert w.helpers[h := s][h := s.(pc := next)] == w.helpers[h := s.(pc := next)];
  }

  lemma Decides(w: World, h: Identity, s: Helper, o: Oracle, next: Pc)
    requires Running(w, h) && s.self.Known? && ClaimStep(s.pc) && !Writing(s.pc)
    requires DecideClaim(w, s, o) == Go(next)
    ensures Apply(Holding(w, h, s), Advance(h, o)) == Holding(w, h, s.(pc := next))
  {
    hide DecideClaim, Decide, Apply, Goto, Deciding, ClaimStep;
    var w' := Holding(w, h, s);
    SameDecision(w, w', s, o);
    DecideIsClaim(w', s, o);
    DecisionTaken(w', h, o);
    HoldingOn(w, h, s, next);
  }

  /** One decision of an undisturbed claim. */
  lemma Chain(w: World, h: Identity, s: Helper, o: Oracle, next: Pc, n: nat)
    requires Running(w, h) && s.self.Known? && ClaimStep(s.pc) && !Writing(s.pc)
    requires DecideClaim(w, s, o) == Go(next) && n > 0
    ensures RunFrom(Holding(w, h, s), Steps(h, o, n)) == RunFrom(Holding(w, h, s.(pc := next)), Steps(h, o, n - 1))
  {
    hide DecideClaim, Apply, RunFrom, Steps;
    Decides(w, h, s, o, next);
    OneStep(Holding(w, h, s), h, o, n);
  }

  // ---------- from the request to the lock ----------

  /** The claim of an idle helper that has not claimed yet. */
  function Asked(w: World, h: Identity): Helper
    requires h in w.helpers
  {
    w.helpers[h].(self := Unknown, pc := ClaimSession, reply := Pending, mark := |w.signals|)
  }

  predicate MayClaim(w: World, h: Identity, session: Identity) {
    && Running(w, h) && w.helpers[h].pc.Idle? && !w.helpers[h].claimed && KeyOf(w.helpers[h].claim) !in w.locks
    && Connected(w, w.helpers[h].transport) && OwnSession(w, h, w.helpers[h].transport) == Ancestor(session)
  }

  function Locked(w: World, h: Identity, session: Identity): Helper
    requires h in w.helpers && w.helpers[h].transport in w.connections
  {
    Asked(w, h).(self := Known(session, w.connections[w.helpers[h].transport]), pc := ClaimRead)
  }

  lemma {:induction false} SameSearch(w: World, w': World, pid: nat, uid: nat, inode: nat, depth: nat)
    requires SameView(w, w')
    ensures FindSession(w', pid, uid, inode, depth) == FindSession(w, pid, uid, inode, depth)
    decreases depth
  {
    if depth > 0 && pid in w.procs {
      SameSearch(w, w', w.procs[pid].parent, uid, inode, depth - 1);
    }
  }

  lemma SameSession(w: World, w': World, h: Identity, t: Transport)
    requires SameView(w, w')
    ensures OwnSession(w', h, t) == OwnSession(w, h, t)
  {
    if Connected(w, t) && h.pid in w.procs {
      SameSearch(w, w', w.procs[h.pid].parent, h.uid, w.connections[t].inode, ANCESTOR_LIMIT);
    }
  }

  lemma Asks(w: World, h: Identity, session: Identity)
    requires MayClaim(w, h, session)
    ensures Apply(w, Request(h, ClaimCommand)) == With(w, h, Asked(w, h))
  {
    hide OwnSession;
  }

  lemma SearchTaken(w: World, h: Identity, s: Helper, o: Oracle)
    requires Running(w, h) && Searching(s.pc)
    ensures Apply(With(w, h, s), Advance(h, o)) == With(w, h, Search(With(w, h, s), h))
  {
    hide Search, Decide;
  }

  lemma FindsSession(w: World, h: Identity, session: Identity, o: Oracle)
    requires MayClaim(w, h, session)
    ensures Apply(With(w, h, Asked(w, h)), Advance(h, o)) == With(w, h, Asked(w, h).(pc := ClaimTransport(session)))
  {
    hide OwnSession, Apply;
    SearchTaken(w, h, Asked(w, h), o);
    SameSession(w, With(w, h, Asked(w, h)), h, w.helpers[h].transport);
  }

  lemma FindsConnection(w: World, h: Identity, session: Identity, o: Oracle)
    requires MayClaim(w, h, session)
    ensures Apply(With(w, h, Asked(w, h).(pc := ClaimTransport(session))), Advance(h, o))
            == With(w, h, Locked(w, h, session).(pc := ClaimLock))
  {
    hide OwnSession, Apply;
    SearchTaken(w, h, Asked(w, h).(pc := ClaimTransport(session)), o);
  }

  lemma TakesLock(w: World, h: Identity, session: Identity)
    requires MayClaim(w, h, session)
    ensures Apply(With(w, h, Locked(w, h, session).(pc := ClaimLock)), Advance(h, CALM)) == Holding(w, h, Locked(w, h, session))
  {
    hide OwnSession, Decide;
    var s := Locked(w, h, session);
    assert w.helpers[h := s.(pc := ClaimLock)][h := s] == w.helpers[h := s];
  }

  /** An idle helper with a connection of its own and a free lock reads the record four steps later. */
  lemma ClaimGetsLock(w: World, h: Identity, session: Identity, n: nat)
    requires MayClaim(w, h, session)
    ensures RunFrom(w, [Request(h, ClaimCommand)] + Steps(h, CALM, n + 3))
            == RunFrom(Holding(w, h, Locked(w, h, session)), Steps(h, CALM, n))
  {
    hide Apply, Steps, OwnSession;
    var more := Steps(h, CALM, n + 3);
    assert ([Request(h, ClaimCommand)] + more)[1..] == more;
    Asks(w, h, session);
    OneStep(With(w, h, Asked(w, h)), h, CALM, n + 3);
    FindsSession(w, h, session, CALM);
    OneStep(With(w, h, Asked(w, h).(pc := ClaimTransport(session))), h, CALM, n + 2);
    FindsConnection(w, h, session, CALM);
    OneStep(With(w, h, Locked(w, h, session).(pc := ClaimLock)), h, CALM, n + 1);
    TakesLock(w, h, session);
  }

  // ---------- the last probe ----------

  lemma ProbePasses(w: World, s: Helper, o: Oracle)
    requires s.self.Known? && (s.pc.FinalProbeFresh? || s.pc.FinalProbeAfter?)
    ensures DecideClaim(w, s, o) ==
            if BindRefused(w, s.claim.host, s.claim.port, o) then Fail(UnmanagedConflict)
            else Go(if s.pc.FinalProbeFresh? then WriteFresh else WriteAfter(s.pc.prior, s.pc.reclaimed))
  {
    hide FindListener, BindRefused;
  }

  lemma WriteRegisters(w: World, h: Identity, o: Oracle)
    requires Running(w, h) && w.helpers[h].self.Known? && o.write.Written?
    requires w.helpers[h].pc.WriteFresh? || w.helpers[h].pc.WriteAfter?
    ensures var s, w' := w.helpers[h], Apply(w, Advance(h, o));
            && w'.listeners == w.listeners && h in w'.helpers && w'.helpers[h].claimed
            && w'.helpers[h].reply == ClaimOk(s.pc.WriteAfter? && s.pc.reclaimed)
            && w'.records == w.records[KeyOf(s.claim) := MakeRecord(s, h, Claimed)]
  {
    var s := w.helpers[h];
    assert Apply(w, Advance(h, o)) == Commit(w, h, MakeRecord(s, h, Claimed), o, WriteReply(s.pc));
  }

  lemma IdleStays(w: World, h: Identity, o: Oracle)
    requires Running(w, h) && w.helpers[h].pc.Idle?
    ensures Apply(w, Advance(h, o)) == w
  {
  }

  lemma ProberKnows(w: World, h: Identity)
    requires Inv(w) && h in w.helpers && (w.helpers[h].pc.FinalProbeFresh? || w.helpers[h].pc.FinalProbeAfter?)
    ensures w.helpers[h].self.Known? && !w.helpers[h].claimed
  {
    assert HelperOk(w, h, w.helpers[h]);
  }

  lemma RefusedStays(w: World, h: Identity, code: Code)
    requires h in w.helpers
    ensures var w' := Refuse(w, h, code);
            && h in w'.helpers && w'.helpers[h] == w.helpers[h].(pc := Idle, reply := Refused(code))
            && w'.records == w.records && w'.listeners == w.listeners && w'.procs == w.procs
  {
  }

  lemma TwoSteps(w: World, a: Action, b: Action)
    ensures RunFrom(w, [a, b]) == Apply(Apply(w, a), b)
  {
    hide Apply;
    assert [a, b][1..] == [b] && [b][1..] == [];
    assert RunFrom(w, [a, b]) == RunFrom(Apply(w, a), [b]);
    assert RunFrom(Apply(w, a), [b]) == RunFrom(Apply(Apply(w, a), b), []);
  }

  /** From any reachable last probe, of a first claim or after the old session is gone: if the write
      works, the claim is registered exactly if the bind succeeded with nobody listening, or failed for
      another reason than an occupied address, whatever listens there. */
  lemma LastProbeDecides(actions: seq<Action>, h: Identity, probe: Oracle, write: Oracle)
    requires Running(Run(actions), h) && write.write.Written?
    requires Run(actions).helpers[h].pc.FinalProbeFresh? || Run(actions).helpers[h].pc.FinalProbeAfter?
    ensures var w, w' := Run(actions), Run(actions + [Advance(h, probe), Advance(h, write)]);
            var claim := w.helpers[h].claim;
            var passes := probe.bindError || (!probe.bindDenied && FindListener(w, claim.host, claim.port).NoListener?);
            && w'.listeners == w.listeners && h in w'.helpers && w'.helpers[h].claimed == passes
            && (if passes
                then w'.helpers[h].reply.ClaimOk? && KeyOf(claim) in w'.records && w'.records[KeyOf(claim)].claim == claim
                     && w'.records[KeyOf(claim)].helper == h
                else w'.helpers[h].reply == Refused(UnmanagedConflict) && w'.records == w.records)
  {
    hide Inv, Apply, Run, FindListener;
    var w := Run(actions);
    RunKeepsInvariant(actions);
    ProberKnows(w, h);
    RunSplits(actions, [Advance(h, probe), Advance(h, write)]);
    TwoSteps(w, Advance(h, probe), Advance(h, write));
    LastProbeLeads(w, h, probe, write);
  }

  lemma LastProbeLeads(w: World, h: Identity, probe: Oracle, write: Oracle)
    requires Running(w, h) && write.write.Written? && w.helpers[h].self.Known? && !w.helpers[h].claimed
    requires w.helpers[h].pc.FinalProbeFresh? || w.helpers[h].pc.FinalProbeAfter?
    ensures var w' := Apply(Apply(w, Advance(h, probe)), Advance(h, write));
            var claim := w.helpers[h].claim;
            var passes := !BindRefused(w, claim.host, claim.port, probe);
            && w'.listeners == w.listeners && h in w'.helpers && w'.helpers[h].claimed == passes
            && (if passes
                then w'.helpers[h].reply.ClaimOk? && KeyOf(claim) in w'.records && w'.records[KeyOf(claim)].claim == claim
                     && w'.records[KeyOf(claim)].helper == h
                else w'.helpers[h].reply == Refused(UnmanagedConflict) && w'.records == w.records)
  {
    hide Apply, FindListener, BindRefused, DecideClaim, Decide, Refuse, Deciding;
    var s := w.helpers[h];
    ProbePasses(w, s, probe);
    DecideIsClaim(w, s, probe);
    DecisionTaken(w, h, probe);
    if BindRefused(w, s.claim.host, s.claim.port, probe) {
      RefusedStays(w, h, UnmanagedConflict);
      IdleStays(Refuse(w, h, UnmanagedConflict), h, write);
    } else {
      WriteRegisters(Apply(w, Advance(h, probe)), h, write);
    }
  }

  // ---------- a first claim ----------

  /** With no record in the way and no single listener listed, the last probe is two steps further. */
  lemma FirstClaimProbes(w: World, h: Identity, session: Identity)
    requires MayClaim(w, h, session) && KeyOf(w.helpers[h].claim) !in w.records
    requires !FindListener(w, w.helpers[h].claim.host, w.helpers[h].claim.port).One?
    ensures RunFrom(w, [Request(h, ClaimCommand)] + Steps(h, CALM, 5))
            == Holding(w, h, Locked(w, h, session).(pc := FinalProbeFresh))
  {
    hide Apply, OwnSession, FindListener;
    var s := Locked(w, h, session);
    ClaimGetsLock(w, h, session, 2);
    Chain(w, h, s, CALM, FinalCheckFresh, 2);
    Chain(w, h, s.(pc := FinalCheckFresh), CALM, FinalProbeFresh, 1);
  }

  // ---------- a claim over a session that was never confirmed ----------

  /** The record in the way names a session that is there, hides its descriptors, and still has exactly the
      recorded connection, but never confirmed a listener. */
  predicate HidesBehind(w: World, h: Identity, session: Identity, prior: Record) {
    && MayClaim(w, h, session) && KeyOf(w.helpers[h].claim) in w.records && w.records[KeyOf(w.helpers[h].claim)] == prior
    && prior.claim.generation < w.helpers[h].claim.generation && prior.phase.Claimed? && prior.session != session
    && prior.claim.host == w.helpers[h].claim.host && prior.claim.port == w.helpers[h].claim.port
    && Present(w, prior.session) && prior.session.pid in w.hidden
    && Connected(w, prior.transport) && w.connections[prior.transport] == prior.sessionProof
  }

  lemma HiddenSessionPasses(w: World, h: Identity, session: Identity, prior: Record, n: nat)
    requires HidesBehind(w, h, session, prior)
    ensures RunFrom(w, [Request(h, ClaimCommand)] + Steps(h, CALM, n + 9))
            == RunFrom(Holding(w, h, Locked(w, h, session).(pc := OldListener(prior))), Steps(h, CALM, n))
  {
    hide Apply, OwnSession, RunFrom, Steps;
    var s, inode := Locked(w, h, session), w.connections[prior.transport].inode;
    ClaimGetsLock(w, h, session, n + 6);
    Chain(w, h, s, CALM, OldIdentity(prior), n + 6);
    Chain(w, h, s.(pc := OldIdentity(prior)), CALM, OldTransport(prior), n + 5);
    Chain(w, h, s.(pc := OldTransport(prior)), CALM, OldInode(prior), n + 4);
    Chain(w, h, s.(pc := OldInode(prior)), CALM, OldDescriptors(prior, inode), n + 3);
    Chain(w, h, s.(pc := OldDescriptors(prior, inode)), CALM, OldProof(prior), n + 2);
    Chain(w, h, s.(pc := OldProof(prior)), CALM, OldListener(prior), n + 1);
  }

  /** The look at who owns the listener at the old address lets the claim pass exactly if the session
      holds it or hides what it holds, and a confirmed record names this very socket. */
  lemma OldOwnerPasses(w: World, s: Helper, o: Oracle)
    requires s.self.Known? && s.pc.OldOwner?
    ensures var prior, row := s.pc.prior, s.pc.row;
            Decide(w, s, o).Go? <==>
              && (OwnedBy(w, prior.session.pid, row.inode).Owned? || OwnedBy(w, prior.session.pid, row.inode).Denied?)
              && (prior.phase.Confirmed? ==> prior.phase.listener == SocketProof(row.uid, row.inode))
  {
    hide FindListener;
  }

  lemma {:induction false} IdleSteps(w: World, h: Identity, o: Oracle, n: nat)
    requires Running(w, h) && w.helpers[h].pc.Idle?
    ensures RunFrom(w, Steps(h, o, n)) == w
    decreases n
  {
    hide Apply;
    if n > 0 {
      IdleStays(w, h, o);
      OneStep(w, h, o, n);
      IdleSteps(w, h, o, n - 1);
    }
  }

  lemma StillRunning(w: World, h: Identity, s: Helper, code: Code)
    requires Running(w, h)
    ensures Running(Holding(w, h, s), h)
    ensures var w' := Refuse(Holding(w, h, s), h, code);
            Running(w', h) && w'.helpers[h].pc.Idle? && w'.signals == w.signals
  {
  }

  /** A refused claim is over. */
  lemma RefusedSteps(w: World, h: Identity, s: Helper, o: Oracle, code: Code, n: nat)
    requires Running(w, h) && s.self.Known? && ClaimStep(s.pc) && !Writing(s.pc)
    requires DecideClaim(w, s, o) == Fail(code) && n > 0
    ensures RunFrom(Holding(w, h, s), Steps(h, o, n)) == Refuse(Holding(w, h, s), h, code)
    ensures Refuse(Holding(w, h, s), h, code).signals == w.signals
  {
    hide DecideClaim, Decide, Apply, Refuse, Deciding, ClaimStep, RunFrom, Steps;
    var w' := Holding(w, h, s);
    SameDecision(w, w', s, o);
    DecideIsClaim(w', s, o);
    StillRunning(w, h, s, code);
    DecisionTaken(w', h, o);
    OneStep(w', h, o, n);
    assert Apply(w', Advance(h, o)) == Refuse(w', h, code);
    IdleSteps(Refuse(w', h, code), h, o, n - 1);
  }

  function SignalTo(w: World, h: Identity, session: Identity, target: Identity): Signal
    requires h in w.helpers
  {
    Signal(h, session, KeyOf(w.helpers[h].claim), w.helpers[h].claim.generation, target, false)
  }

  lemma Signalled(w: World, h: Identity, session: Identity, prior: Record)
    requires HidesBehind(w, h, session, prior)
    ensures Apply(Holding(w, h, Locked(w, h, session).(pc := PinSignal(prior, prior.session, false))), Advance(h, CALM))
            == Holding(w, h, Locked(w, h, session).(pc := PinWait(prior, prior.session, false)))
               .(signals := w.signals + [SignalTo(w, h, session, prior.session)])
  {
    hide OwnSession;
    var s := Locked(w, h, session);
    var next := PinWait(prior, prior.session, false);
    assert w.helpers[h := s.(pc := PinSignal(prior, prior.session, false))][h := s.(pc := next)] == w.helpers[h := s.(pc := next)];
  }

  lemma LiveIsPinned(w: World, h: Identity, session: Identity, prior: Record, bound: bool, n: nat)
    requires HidesBehind(w, h, session, prior)
    ensures RunFrom(Holding(w, h, Locked(w, h, session).(pc := OldLive(prior, bound))), Steps(h, CALM, n + 2))
            == RunFrom(Holding(w, h, Locked(w, h, session).(pc := PinSetOwner(prior))), Steps(h, CALM, n))
  {
    hide Apply, OwnSession, RunFrom, Steps, Qualifies;
    var s := Locked(w, h, session);
    Chain(w, h, s.(pc := OldLive(prior, bound)), CALM, PinOpen(prior), n + 2);
    Chain(w, h, s.(pc := PinOpen(prior)), CALM, PinSetOwner(prior), n + 1);
  }

  lemma PinnedIsAimed(w: World, h: Identity, session: Identity, prior: Record, n: nat)
    requires HidesBehind(w, h, session, prior)
    ensures RunFrom(Holding(w, h, Locked(w, h, session).(pc := PinSetOwner(prior))), Steps(h, CALM, n + 2))
            == RunFrom(Holding(w, h, Locked(w, h, session).(pc := PinSignal(prior, prior.session, false))), Steps(h, CALM, n))
  {
    hide Apply, OwnSession, RunFrom, Steps, Qualifies;
    var s := Locked(w, h, session);
    Chain(w, h, s.(pc := PinSetOwner(prior)), CALM, PinRecheck(prior, prior.session), n + 2);
    Chain(w, h, s.(pc := PinRecheck(prior, prior.session)), CALM, PinSignal(prior, prior.session, false), n + 1);
  }

  lemma PinnedSignals(w: World, h: Identity, session: Identity, prior: Record, bound: bool)
    requires HidesBehind(w, h, session, prior)
    ensures RunFrom(Holding(w, h, Locked(w, h, session).(pc := OldLive(prior, bound))), Steps(h, CALM, 5))
            == Holding(w, h, Locked(w, h, session).(pc := PinWait(prior, prior.session, false)))
               .(signals := w.signals + [SignalTo(w, h, session, prior.session)])
  {
    hide Apply, OwnSession, RunFrom, Steps, Locked;
    LiveIsPinned(w, h, session, prior, bound, 3);
    PinnedIsAimed(w, h, session, prior, 1);
    var aimed := Holding(w, h, Locked(w, h, session).(pc := PinSignal(prior, prior.session, false)));
    OneStep(aimed, h, CALM, 1);
    Signalled(w, h, session, prior);
    NoSteps(Apply(aimed, Advance(h, CALM)), h, CALM);
  }

  /** Nothing listens at the recorded address, or a single listener of the recorded user. Who holds its
      socket does not come into it. */
  ghost predicate UserListens(w: World, prior: Record) {
    var found := FindListener(w, prior.claim.host, prior.claim.port);
    found.NoListener? || (found.One? && found.row.uid == prior.session.uid)
  }

  lemma HiddenListenerPasses(w: World, h: Identity, session: Identity, prior: Record, n: nat)
    requires HidesBehind(w, h, session, prior) && UserListens(w, prior)
    ensures exists bound ::
              RunFrom(Holding(w, h, Locked(w, h, session).(pc := OldListener(prior))), Steps(h, CALM, n + 2))
              == RunFrom(Holding(w, h, Locked(w, h, session).(pc := OldLive(prior, bound))), Steps(h, CALM, n))
  {
    hide Apply, OwnSession, RunFrom, Steps, FindListener;
    ListingIsUsable(w, prior.claim.host, prior.claim.port);
    var s, found := Locked(w, h, session), FindListener(w, prior.claim.host, prior.claim.port);
    if found.One? {
      Chain(w, h, s.(pc := OldListener(prior)), CALM, OldOwner(prior, found.row), n + 2);
      Chain(w, h, s.(pc := OldOwner(prior, found.row)), CALM, OldLive(prior, true), n + 1);
    } else {
      Chain(w, h, s.(pc := OldListener(prior)), CALM, OldProbe(prior), n + 2);
      Chain(w, h, s.(pc := OldProbe(prior)), CALM, OldLive(prior, false), n + 1);
    }
  }

  lemma ListingIsUsable(w: World, host: nat, port: nat)
    ensures FindListener(w, host, port).One? ==> FindListener(w, host, port).row.inode != 0
  {
  }

  /** An undisturbed claim over a session that never confirmed and hides its descriptors signals that
      session exactly if nothing listens at the recorded address, or a single listener of the same user,
      whoever holds it. */
  lemma HiddenSessionIsSignalled(w: World, h: Identity, session: Identity, prior: Record)
    requires HidesBehind(w, h, session, prior)
    ensures var w' := RunFrom(w, [Request(h, ClaimCommand)] + Steps(h, CALM, 16));
            if UserListens(w, prior)
            then w' == Holding(w, h, Locked(w, h, session).(pc := PinWait(prior, prior.session, false)))
                       .(signals := w.signals + [SignalTo(w, h, session, prior.session)])
            else w'.signals == w.signals && h in w'.helpers && w'.helpers[h].reply == Refused(UnmanagedConflict)
  {
    hide Apply, OwnSession, RunFrom, Steps, FindListener;
    var s := Locked(w, h, session).(pc := OldListener(prior));
    HiddenSessionPasses(w, h, session, prior, 7);
    if UserListens(w, prior) {
      HiddenListenerPasses(w, h, session, prior, 5);
      PinnedSignals(w, h, session, prior, true);
      PinnedSignals(w, h, session, prior, false);
    } else {
      RefusedSteps(w, h, s, CALM, UnmanagedConflict, 7);
      RefusedStays(Holding(w, h, s), h, UnmanagedConflict);
    }
  }

  // ---------- the write ----------

  /** The claim is in the record and the lock is free again. */
  function Registered(w: World, h: Identity, s: Helper, reclaimed: bool): World
    requires s.self.Known?
  {
    var r := MakeRecord(s, h, Claimed);
    With(w, h, s.(claimed := true, pc := Idle, reply := ClaimOk(reclaimed)))
    .(records := w.records[KeyOf(s.claim) := r], history := w.history + [r])
  }

  lemma Writes(w: World, h: Identity, s: Helper)
    requires Running(w, h) && s.self.Known? && KeyOf(s.claim) !in w.locks && (s.pc.WriteFresh? || s.pc.WriteAfter?)
    ensures Apply(Holding(w, h, s), Advance(h, CALM)) == Registered(w, h, s, s.pc.WriteAfter? && s.pc.reclaimed)
  {
    var w', key, r := Holding(w, h, s), KeyOf(s.claim), MakeRecord(s, h, Claimed);
    assert Apply(w', Advance(h, CALM)) == Commit(w', h, r, CALM, WriteReply(s.pc));
    assert w.locks[key := h] - {key} == w.locks;
    var done := s.(claimed := true, pc := Idle, reply := WriteReply(s.pc));
    assert w.helpers[h := s][h := done] == w.helpers[h := done];
  }

  /** A probe that fails for want of a descriptor, and the write. */
  lemma FailedProbeRegisters(w: World, h: Identity, s: Helper)
    requires Running(w, h) && s.self.Known? && KeyOf(s.claim) !in w.locks && (s.pc.FinalProbeFresh? || s.pc.FinalProbeAfter?)
    ensures RunFrom(Holding(w, h, s), [Advance(h, NO_BIND), Advance(h, CALM)])
            == Registered(w, h, s, s.pc.FinalProbeAfter? && s.pc.reclaimed)
  {
    hide Apply, RunFrom, DecideClaim, ClaimStep;
    var next := if s.pc.FinalProbeFresh? then WriteFresh else WriteAfter(s.pc.prior, s.pc.reclaimed);
    TwoSteps(Holding(w, h, s), Advance(h, NO_BIND), Advance(h, CALM));
    ProbePasses(w, s, NO_BIND);
    ProbingStep(s.pc);
    Decides(w, h, s, NO_BIND, next);
    Writes(w, h, s.(pc := next));
  }

  lemma ProbingStep(pc: Pc)
    requires pc.FinalProbeFresh? || pc.FinalProbeAfter?
    ensures ClaimStep(pc)
  {
  }

  /** Once the signalled session is dead, and with no single listener listed, the last probe comes two
      steps later. */
  lemma ReclaimProbes(w: World, h: Identity, s: Helper)
    requires Running(w, h) && s.self.Known? && s.pc.PinWait? && Dead(w, s.pc.prior.session)
    requires !FindListener(w, s.claim.host, s.claim.port).One?
    ensures RunFrom(Holding(w, h, s), Steps(h, CALM, 2)) == Holding(w, h, s.(pc := FinalProbeAfter(s.pc.prior, true)))
  {
    hide Apply, RunFrom, Steps, FindListener;
    var prior := s.pc.prior;
    Chain(w, h, s, CALM, FinalCheckAfter(prior, true), 2);
    Chain(w, h, s.(pc := FinalCheckAfter(prior, true)), CALM, FinalProbeAfter(prior, true), 1);
    NoSteps(Holding(w, h, s.(pc := FinalProbeAfter(prior, true))), h, CALM);
  }

  // ---------- one run ----------

  const FIRST: Identity := Identity(10, 1000, "1", "sshd")
  const FIRST_HELPER: Identity := Identity(11, 1000, "2", "helper")
  const SECOND: Identity := Identity(20, 1000, "3", "sshd")
  const SECOND_HELPER: Identity := Identity(21, 1000, "4", "helper")
  /** Same user, no session. */
  const STRANGER: Identity := Identity(30, 1000, "5", "other")

  const FIRST_TRANSPORT: Transport := Transport(1, 1, 2, 22)
  const SECOND_TRANSPORT: Transport := Transport(1, 2, 2, 22)
  const CONNECTIONS: map<Transport, SocketProof> :=
    map[FIRST_TRANSPORT := SocketProof(1000, 51), SECOND_TRANSPORT := SocketProof(1000, 52)]
  const STRANGE_ROW: Listener := Listener(7, 8080, 1000, 70)
  const FDS: set<(nat, nat)> := {(10, 51), (20, 52), (30, 70)}

  const FIRST_CLAIM: Claim := Claim("o", "r", 1, "x", 7, 8080)
  const SECOND_CLAIM: Claim := Claim("o", "r", 2, "y", 7, 8080)

  /** The sockets with these listeners; the first session hides its descriptors. */
  function Net(listeners: set<Listener>): Action {
    Sockets(listeners, CONNECTIONS, FDS, {10})
  }

  const PROCESSES: seq<Action> :=
    [Spawn(FIRST, 1), Spawn(FIRST_HELPER, 10), Spawn(SECOND, 1), Spawn(SECOND_HELPER, 20), Spawn(STRANGER, 1)]

  const RESERVATIONS: seq<Action> :=
    [OpenManager("d", "o", Durable), Reserve("d", "o", "r", "x", 7, 8080, Durable), Reserve("d", "o", "r", "y", 7, 8080, Durable)]

  const HELPERS: seq<Action> :=
    [StartHelper(FIRST_HELPER, 0, FIRST_TRANSPORT), StartHelper(SECOND_HELPER, 1, SECOND_TRANSPORT)]

  const POPULATED: World :=
    INITIAL.(
      procs := map[
        10 := Process(FIRST, 1, false), 11 := Process(FIRST_HELPER, 10, false), 20 := Process(SECOND, 1, false),
        21 := Process(SECOND_HELPER, 20, false), 30 := Process(STRANGER, 1, false)],
      born := {FIRST, FIRST_HELPER, SECOND, SECOND_HELPER, STRANGER})

  const CONNECTED: World := POPULATED.(connections := CONNECTIONS, fds := FDS, hidden := {10})

  const RESERVED: World :=
    CONNECTED.(
      files := map["d" := Stored(State("o", map["r" := 2]))], owners := {"o"}, issued := [FIRST_CLAIM, SECOND_CLAIM])

  const READY: World :=
    RESERVED.(
      helpers := map[
        FIRST_HELPER := Helper(0, FIRST_CLAIM, FIRST_TRANSPORT, false, Unknown, Idle, Pending, 0),
        SECOND_HELPER := Helper(1, SECOND_CLAIM, SECOND_TRANSPORT, false, Unknown, Idle, Pending, 0)])

  lemma Populates()
    ensures RunFrom(INITIAL, PROCESSES) == POPULATED
  {
    var w1 := Apply(INITIAL, PROCESSES[0]);
    var w2 := Apply(w1, PROCESSES[1]);
    var w3 := Apply(w2, PROCESSES[2]);
    var w4 := Apply(w3, PROCESSES[3]);
    var w5 := Apply(w4, PROCESSES[4]);
    FiveSteps(INITIAL, PROCESSES);
    hide RunFrom;
    assert w5.procs == POPULATED.procs && w5.born == POPULATED.born;
  }

  lemma FiveSteps(w: World, actions: seq<Action>)
    requires |actions| == 5
    ensures RunFrom(w, actions) == Apply(Apply(Apply(Apply(Apply(w, actions[0]), actions[1]), actions[2]), actions[3]), actions[4])
  {
    hide Apply;
    var two, three := actions[..2], actions[2..];
    assert actions == two + three && two == [actions[0], actions[1]] && three == [actions[2]] + [actions[3], actions[4]];
    RunFromSplits(w, two, three);
    TwoSteps(w, actions[0], actions[1]);
    RunFromSplits(RunFrom(w, two), [actions[2]], [actions[3], actions[4]]);
    ThisStep(RunFrom(w, two), actions[2]);
    TwoSteps(Apply(RunFrom(w, two), actions[2]), actions[3], actions[4]);
  }

  lemma ThisStep(w: World, a: Action)
    ensures RunFrom(w, [a]) == Apply(w, a)
  {
    hide Apply;
    assert [a][1..] == [];
  }

  lemma Reserves()
    ensures RunFrom(CONNECTED, RESERVATIONS) == RESERVED
  {
    var w1 := Apply(CONNECTED, RESERVATIONS[0]);
    assert w1 == CONNECTED.(files := map["d" := Stored(State("o", map[]))], owners := {"o"});
    var w2 := Apply(w1, RESERVATIONS[1]);
    assert w2 == w1.(files := map["d" := Stored(State("o", map["r" := 1]))], issued := [FIRST_CLAIM]);
    var w3 := Apply(w2, RESERVATIONS[2]);
    assert map["r" := 1]["r" := 2] == map["r" := 2];
    assert w3 == RESERVED;
    hide Apply;
    RunFromSplits(CONNECTED, [RESERVATIONS[0]], [RESERVATIONS[1], RESERVATIONS[2]]);
    ThisStep(CONNECTED, RESERVATIONS[0]);
    TwoSteps(w1, RESERVATIONS[1], RESERVATIONS[2]);
    assert RESERVATIONS == [RESERVATIONS[0]] + [RESERVATIONS[1], RESERVATIONS[2]];
  }

  lemma StartsHelpers()
    ensures RunFrom(RESERVED, HELPERS) == READY
  {
    var w1 := Apply(RESERVED, HELPERS[0]);
    assert w1 == RESERVED.(helpers := map[FIRST_HELPER := READY.helpers[FIRST_HELPER]]);
    var w2 := Apply(w1, HELPERS[1]);
    assert w2 == READY;
    hide Apply;
    TwoSteps(RESERVED, HELPERS[0], HELPERS[1]);
  }

  const SETUP: seq<Action> := PROCESSES + ([Net({})] + (RESERVATIONS + HELPERS))

  lemma SetsUp()
    ensures Run(SETUP) == READY
  {
    hide Apply;
    assert [] + SETUP == SETUP;
    RunSplits([], SETUP);
    RunFromSplits(INITIAL, PROCESSES, [Net({})] + (RESERVATIONS + HELPERS));
    Populates();
    RunFromSplits(POPULATED, [Net({})], RESERVATIONS + HELPERS);
    ThisStep(POPULATED, Net({}));
    assert Apply(POPULATED, Net({})) == CONNECTED by {
      NetApplies(POPULATED, {});
    }
    RunFromSplits(CONNECTED, RESERVATIONS, HELPERS);
    Reserves();
    StartsHelpers();
  }

  lemma NetApplies(w: World, listeners: set<Listener>)
    ensures Apply(w, Net(listeners)) == w.(listeners := listeners, connections := CONNECTIONS, fds := FDS, hidden := {10})
  {
  }

  /** The first helper claims; a stranger starts to listen just before its last probe. */
  const FIRST_RUN: seq<Action> :=
    SETUP + ([Request(FIRST_HELPER, ClaimCommand)] + Steps(FIRST_HELPER, CALM, 5)
    + ([Net({STRANGE_ROW})] + [Advance(FIRST_HELPER, NO_BIND), Advance(FIRST_HELPER, CALM)]))

  const FIRST_SELF: Self := Known(FIRST, SocketProof(1000, 51))

  const PROBING: Helper := Helper(0, FIRST_CLAIM, FIRST_TRANSPORT, false, FIRST_SELF, FinalProbeFresh, Pending, 0)

  const OCCUPIED: World := Registered(READY.(listeners := {STRANGE_ROW}), FIRST_HELPER, PROBING, false)

  /** The record it has written, never to be confirmed. */
  const UNCONFIRMED: Record := MakeRecord(PROBING, FIRST_HELPER, Claimed)

  lemma FirstMayClaim()
    ensures MayClaim(READY, FIRST_HELPER, FIRST)
    ensures Locked(READY, FIRST_HELPER, FIRST).(pc := FinalProbeFresh) == PROBING
  {
    assert Qualifies(READY, 10, 1000, 51);
  }

  lemma Listens(w: World)
    ensures w.listeners == {} ==> FindListener(w, 7, 8080) == NoListener
    ensures w.listeners == {STRANGE_ROW} ==> FindListener(w, 7, 8080) == One(STRANGE_ROW)
  {
    var rows := set l | l in w.listeners && l.port == 8080 && (l.host == 7 || l.host == 0 || 7 == 0);
    if w.listeners == {STRANGE_ROW} {
      assert rows == {STRANGE_ROW};
    }
  }

  lemma FirstRunEnds()
    ensures Run(FIRST_RUN) == OCCUPIED
  {
    var ask := [Request(FIRST_HELPER, ClaimCommand)] + Steps(FIRST_HELPER, CALM, 5);
    var probe := [Advance(FIRST_HELPER, NO_BIND), Advance(FIRST_HELPER, CALM)];
    var net := [Net({STRANGE_ROW})];
    FirstMayClaim();
    Listens(READY);
    hide Apply, MayClaim, Locked, FindListener, Steps, Run, RunFrom, Registered;
    SetsUp();
    RunSplits(SETUP, ask + (net + probe));
    RunFromSplits(READY, ask, net + probe);
    FirstClaimProbes(READY, FIRST_HELPER, FIRST);
    var held := Holding(READY, FIRST_HELPER, PROBING);
    RunFromSplits(held, net, probe);
    ThisStep(held, Net({STRANGE_ROW}));
    NetApplies(held, {STRANGE_ROW});
    FailedProbeRegisters(READY.(listeners := {STRANGE_ROW}), FIRST_HELPER, PROBING);
  }

  /** A claim is granted for an address at which a stranger listens. */
  lemma ClaimedOverStranger()
    ensures var w := Run(FIRST_RUN);
            && FIRST_HELPER in w.helpers && w.helpers[FIRST_HELPER].reply == ClaimOk(false)
            && w.records == map[KeyOf(FIRST_CLAIM) := UNCONFIRMED] && UNCONFIRMED.session == FIRST
            && FindListener(w, FIRST_CLAIM.host, FIRST_CLAIM.port) == One(STRANGE_ROW)
            && OwnedBy(w, STRANGER.pid, STRANGE_ROW.inode).Owned? && (FIRST.pid, STRANGE_ROW.inode) !in w.fds
  {
    hide Apply, Run, FindListener;
    FirstRunEnds();
    Listens(OCCUPIED);
  }

  // ---------- the same run goes on ----------

  const SECOND_ASKS: seq<Action> := [Request(SECOND_HELPER, ClaimCommand)] + Steps(SECOND_HELPER, CALM, 16)

  const WAITING: Helper :=
    Helper(1, SECOND_CLAIM, SECOND_TRANSPORT, false, Known(SECOND, SocketProof(1000, 52)), PinWait(UNCONFIRMED, FIRST, false), Pending, 0)

  const SENT: Signal := Signal(SECOND_HELPER, SECOND, ("o", "r"), 2, FIRST, false)

  lemma SecondMayClaim()
    ensures HidesBehind(OCCUPIED, SECOND_HELPER, SECOND, UNCONFIRMED)
    ensures Locked(OCCUPIED, SECOND_HELPER, SECOND).(pc := PinWait(UNCONFIRMED, FIRST, false)) == WAITING
    ensures SignalTo(OCCUPIED, SECOND_HELPER, SECOND, FIRST) == SENT
  {
    assert Qualifies(OCCUPIED, 20, 1000, 52);
  }

  const SIGNALLED: World := Holding(OCCUPIED, SECOND_HELPER, WAITING).(signals := [SENT])

  lemma SecondSignals()
    ensures Run(FIRST_RUN + SECOND_ASKS) == SIGNALLED
  {
    SecondMayClaim();
    Listens(OCCUPIED);
    hide Apply, Run, HidesBehind, Locked, Steps, FindListener, RunFrom;
    FirstRunEnds();
    RunSplits(FIRST_RUN, SECOND_ASKS);
    HiddenSessionIsSignalled(OCCUPIED, SECOND_HELPER, SECOND, UNCONFIRMED);
    assert OCCUPIED.signals + [SENT] == [SENT];
  }

  /** A session that never confirmed is signalled although the listener at its address is a stranger's:
      with its descriptors hidden the user is all that is compared. */
  lemma SignalledOverStranger()
    ensures var w := Run(FIRST_RUN + SECOND_ASKS);
            && w.signals == [SENT] && SENT.target == FIRST
            && w.records == map[KeyOf(FIRST_CLAIM) := UNCONFIRMED] && UNCONFIRMED.phase.Claimed?
            && FindListener(w, FIRST_CLAIM.host, FIRST_CLAIM.port) == One(STRANGE_ROW)
            && OwnedBy(w, STRANGER.pid, STRANGE_ROW.inode).Owned? && (FIRST.pid, STRANGE_ROW.inode) !in w.fds
  {
    hide Apply, Run, FindListener;
    SecondSignals();
    Listens(SIGNALLED);
  }

  /** The signalled session dies, the stranger stops listening for a moment and starts again before the
      last probe. */
  const RECLAIM: seq<Action> :=
    [Exit(10), Net({})] + (Steps(SECOND_HELPER, CALM, 2)
    + ([Net({STRANGE_ROW})] + [Advance(SECOND_HELPER, NO_BIND), Advance(SECOND_HELPER, CALM)]))

  const BEREFT: World := OCCUPIED.(procs := OCCUPIED.procs[10 := Process(FIRST, 1, true)], signals := [SENT])

  lemma FirstDies()
    ensures Apply(SIGNALLED, Exit(10)) == Holding(BEREFT, SECOND_HELPER, WAITING)
  {
    assert FIRST !in SIGNALLED.helpers;
  }

  const RECLAIMED: World :=
    Registered(BEREFT, SECOND_HELPER, WAITING.(pc := FinalProbeAfter(UNCONFIRMED, true)), true)

  lemma ReclaimEnds()
    ensures Run(FIRST_RUN + SECOND_ASKS + RECLAIM) == RECLAIMED
  {
    var steps, probe := Steps(SECOND_HELPER, CALM, 2), [Advance(SECOND_HELPER, NO_BIND), Advance(SECOND_HELPER, CALM)];
    var quiet := BEREFT.(listeners := {});
    var last := WAITING.(pc := FinalProbeAfter(UNCONFIRMED, true));
    Listens(quiet);
    FirstDies();
    assert BEREFT.listeners == {STRANGE_ROW};
    assert Running(quiet, SECOND_HELPER) && Running(BEREFT, SECOND_HELPER) && Dead(quiet, FIRST) && KeyOf(SECOND_CLAIM) !in BEREFT.locks;
    hide Apply, Run, Steps, FindListener, RunFrom, Registered;
    SecondSignals();
    RunSplits(FIRST_RUN + SECOND_ASKS, RECLAIM);
    RunFromSplits(SIGNALLED, [Exit(10), Net({})], steps + ([Net({STRANGE_ROW})] + probe));
    TwoSteps(SIGNALLED, Exit(10), Net({}));
    NetApplies(Holding(BEREFT, SECOND_HELPER, WAITING), {});
    var held := Holding(quiet, SECOND_HELPER, WAITING);
    RunFromSplits(held, steps, [Net({STRANGE_ROW})] + probe);
    ReclaimProbes(quiet, SECOND_HELPER, WAITING);
    var probing := Holding(quiet, SECOND_HELPER, last);
    RunFromSplits(probing, [Net({STRANGE_ROW})], probe);
    ThisStep(probing, Net({STRANGE_ROW}));
    NetApplies(probing, {STRANGE_ROW});
    FailedProbeRegisters(BEREFT, SECOND_HELPER, last);
  }

  /** And the reclaimed rule is granted over the stranger's listener as well. */
  lemma ReclaimedOverStranger()
    ensures var w := Run(FIRST_RUN + SECOND_ASKS + RECLAIM);
            && SECOND_HELPER in w.helpers && w.helpers[SECOND_HELPER].reply == ClaimOk(true) && Dead(w, FIRST)
            && KeyOf(SECOND_CLAIM) in w.records && w.records[KeyOf(SECOND_CLAIM)].session == SECOND
            && FindListener(w, SECOND_CLAIM.host, SECOND_CLAIM.port) == One(STRANGE_ROW)
            && OwnedBy(w, STRANGER.pid, STRANGE_ROW.inode).Owned?
  {
    hide Apply, Run, FindListener;
    ReclaimEnds();
    Listens(RECLAIMED);
  }
}
