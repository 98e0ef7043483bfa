/** What an undisturbed helper makes of every world: the exact outcome of a claim, of a confirmation and of
    a release when nobody interferes and no operation of the system fails
    (crates/fwm-core/src/cleanup/native_helper.c, `claim_op`, `confirm_op`, `release_op`). */
module LeaseOutcomes {
  import opened Basics
  import opened Recovery
  import opened LeaseWorld
  import LeaseSafety
  import opened LeaseRuns

  // ---------- the fate of a claim ----------

  datatype Fate =
    | Refuses(code: Code)
    | Registers(reclaimed: bool)
    | Waits                     // the old session has been signalled and lives on

  /** Nothing is listed at the address. */
  ghost predicate Free(w: World, host: nat, port: nat) {
    FindListener(w, host, port).NoListener?
  }

  /** The old session still has its recorded connection among its descriptors, or hides them while the
      connection is the very one recorded. */
  predicate KeepsConnection(w: World, prior: Record) {
    && Connected(w, prior.transport)
    && var owner := OwnedBy(w, prior.session.pid, w.connections[prior.transport].inode);
       owner.Owned? || (owner.Denied? && w.connections[prior.transport] == prior.sessionProof)
  }

  /** Nothing is at the old address but what the old session itself may have there. */
  ghost predicate OldAddressClear(w: World, prior: Record) {
    var found := FindListener(w, prior.claim.host, prior.claim.port);
    found.NoListener?
    || (Present(w, prior.session) && found.One? && found.row.uid == prior.session.uid
        && !OwnedBy(w, prior.session.pid, found.row.inode).NotOwned?
        && (prior.phase.Confirmed? ==> prior.phase.listener == SocketProof(found.row.uid, found.row.inode)))
  }

  predicate AtOneAddress(a: Claim, b: Claim) {
    a.host == b.host && a.port == b.port
  }

  /** The old session may be replaced: it is older, it is what it was, and neither address is somebody
      else's. */
  ghost predicate MaySucceed(w: World, claim: Claim, session: Identity, prior: Record) {
    && prior.claim.generation < claim.generation
    && (Present(w, prior.session) ==> KeepsConnection(w, prior))
    && OldAddressClear(w, prior) && prior.session != session
    && (AtOneAddress(prior.claim, claim) || Free(w, claim.host, claim.port))
  }

  ghost function FinalFate(w: World, claim: Claim, reclaimed: bool): Fate {
    if Free(w, claim.host, claim.port) then Registers(reclaimed) else Refuses(UnmanagedConflict)
  }

  ghost function ClaimFate(w: World, claim: Claim, session: Identity): Fate {
    if KeyOf(claim) !in w.records then FinalFate(w, claim, false)
    else
      var prior := w.records[KeyOf(claim)];
      if MaySucceed(w, claim, session, prior) then
        if Dead(w, prior.session) then FinalFate(w, claim, Present(w, prior.session)) else Waits
      else if prior.claim.generation >= claim.generation then Refuses(OwnershipMismatch)
      else if Present(w, prior.session) && !KeepsConnection(w, prior) then Refuses(OwnershipMismatch)
      else if !OldAddressClear(w, prior) then Refuses(UnmanagedConflict)
      else if prior.session == session then Refuses(OwnershipMismatch)
      else Refuses(NewAddressOccupied)
  }

  /** The one session such a claim signals, if it signals any. */
  ghost predicate SignalsPrior(w: World, claim: Claim, session: Identity) {
    KeyOf(claim) in w.records
    && var prior := w.records[KeyOf(claim)];
       MaySucceed(w, claim, session, prior) && Present(w, prior.session)
  }

  // ---------- stages of the claim, from the last back to the first ----------

  /** A claim that holds the lock of its rule and knows its own session. */
  predicate Undisturbed(w: World, h: Identity, s: Helper) {
    Running(w, h) && s.self.Known? && KeyOf(s.claim) !in w.locks
  }

  /** The claim is over and refused. */
  function Rejected(w: World, h: Identity, s: Helper, code: Code): World {
    With(w, h, s.(pc := Idle, reply := Refused(code)))
  }

  ghost function Outcome(w: World, h: Identity, s: Helper, fate: Fate): World
    requires s.self.Known?
  {
    match fate
    case Refuses(code) => Rejected(w, h, s, code)
    case Registers(reclaimed) => Registered(w, h, s, reclaimed)
    case Waits => w
  }

  lemma IsRejected(w: World, h: Identity, s: Helper, code: Code)
    requires KeyOf(s.claim) !in w.locks
    ensures Refuse(Holding(w, h, s), h, code) == Rejected(w, h, s, code)
  {
    var done := s.(pc := Idle, reply := Refused(code));
    assert w.helpers[h := s][h := done] == w.helpers[h := done];
    assert w.locks[KeyOf(s.claim) := h] - {KeyOf(s.claim)} == w.locks;
  }

  lemma Refusal(w: World, h: Identity, s: Helper, code: Code, n: nat)
    requires Undisturbed(w, h, s) && ClaimStep(s.pc) && !Writing(s.pc) && DecideClaim(w, s, CALM) == Fail(code) && n > 0
    ensures RunFrom(Holding(w, h, s), Steps(h, CALM, n)) == Rejected(w, h, s, code)
  {
    hide DecideClaim, RunFrom, Steps, Refuse, Rejected, Holding, ClaimStep;
    RefusedSteps(w, h, s, CALM, code, n);
    IsRejected(w, h, s, code);
  }

  lemma WriteStage(w: World, h: Identity, s: Helper, n: nat)
    requires Undisturbed(w, h, s) && (s.pc.WriteFresh? || s.pc.WriteAfter?) && n > 0
    ensures RunFrom(Holding(w, h, s), Steps(h, CALM, n)) == Registered(w, h, s, s.pc.WriteAfter? && s.pc.reclaimed)
  {
    hide RunFrom, Steps, Apply;
    var reclaimed := s.pc.WriteAfter? && s.pc.reclaimed;
    Writes(w, h, s);
    OneStep(Holding(w, h, s), h, CALM, n);
    assert Running(Registered(w, h, s, reclaimed), h);
    IdleSteps(Registered(w, h, s, reclaimed), h, CALM, n - 1);
  }

  predicate AtFinalCheck(pc: Pc) { pc.FinalCheckFresh? || pc.FinalCheckAfter? }

  /** The listing, the bind and the write. */
  lemma FinalStage(w: World, h: Identity, s: Helper, n: nat)
    requires Undisturbed(w, h, s) && AtFinalCheck(s.pc) && n >= 3
    ensures RunFrom(Holding(w, h, s), Steps(h, CALM, n))
            == Outcome(w, h, s, FinalFate(w, s.claim, s.pc.FinalCheckAfter? && s.pc.reclaimed))
  {
    hide RunFrom, Steps, Apply, FindListener, Holding, Registered, Rejected;
    var found := FindListener(w, s.claim.host, s.claim.port);
    var first := s.pc.FinalCheckFresh?;
    var probe := if first then FinalProbeFresh else FinalProbeAfter(s.pc.prior, s.pc.reclaimed);
    var write := if first then WriteFresh else WriteAfter(s.pc.prior, s.pc.reclaimed);
    if found.One? {
      Refusal(w, h, s, UnmanagedConflict, n);
    } else {
      Chain(w, h, s, CALM, probe, n);
      ProbePasses(w, s.(pc := probe), CALM);
      if found.NoListener? {
        Chain(w, h, s.(pc := probe), CALM, write, n - 1);
        WriteStage(w, h, s.(pc := write), n - 2);
        SameOutcome(w, h, s, s.(pc := write));
      } else {
        Refusal(w, h, s.(pc := probe), UnmanagedConflict, n - 1);
        SameOutcome(w, h, s, s.(pc := probe));
      }
    }
  }

  /** Where the claim stood does not show in how it ends. */
  lemma SameOutcome(w: World, h: Identity, s: Helper, s': Helper)
    requires s.self.Known? && s' == s.(pc := s'.pc)
    ensures forall code :: Rejected(w, h, s', code) == Rejected(w, h, s, code)
    ensures forall b :: Registered(w, h, s', b) == Registered(w, h, s, b)
  {
  }

  /** Over a session that is gone. */
  lemma GoneStage(w: World, h: Identity, s: Helper, n: nat)
    requires Undisturbed(w, h, s) && s.pc.GoneCheck? && n >= 5
    ensures RunFrom(Holding(w, h, s), Steps(h, CALM, n)) == Outcome(w, h, s, FinalFate(w, s.claim, false))
  {
    hide RunFrom, Steps, Apply, FindListener, Holding, Registered, Rejected;
    var found, prior := FindListener(w, s.claim.host, s.claim.port), s.pc.prior;
    if found.One? {
      Refusal(w, h, s, UnmanagedConflict, n);
    } else {
      Chain(w, h, s, CALM, GoneProbe(prior), n);
      if found.NoListener? {
        Chain(w, h, s.(pc := GoneProbe(prior)), CALM, FinalCheckAfter(prior, false), n - 1);
        FinalStage(w, h, s.(pc := FinalCheckAfter(prior, false)), n - 2);
        SameOutcome(w, h, s, s.(pc := FinalCheckAfter(prior, false)));
      } else {
        Refusal(w, h, s.(pc := GoneProbe(prior)), UnmanagedConflict, n - 1);
        SameOutcome(w, h, s, s.(pc := GoneProbe(prior)));
      }
    }
  }

  // ---------- the signal ----------

  /** The old session has been told to terminate. */
  function Sent(w: World, h: Identity, s: Helper, target: Identity): World
    requires s.self.Known?
  {
    w.(signals := w.signals + [Signal(h, s.self.session, KeyOf(s.claim), s.claim.generation, target, false)])
  }

  lemma Sends(w: World, h: Identity, s: Helper)
    requires Undisturbed(w, h, s) && s.pc.PinSignal? && !s.pc.kill && Present(w, s.pc.target)
    ensures Apply(Holding(w, h, s), Advance(h, CALM))
            == Holding(Sent(w, h, s, s.pc.target), h, s.(pc := PinWait(s.pc.prior, s.pc.target, false)))
  {
    hide Decide;
    var next := s.(pc := PinWait(s.pc.prior, s.pc.target, false));
    assert w.helpers[h := s][h := next] == w.helpers[h := next];
  }

  lemma {:induction false} WaitSteps(w: World, h: Identity, s: Helper, n: nat)
    requires Undisturbed(w, h, s) && s.pc.PinWait? && !Dead(w, s.pc.prior.session)
    ensures RunFrom(Holding(w, h, s), Steps(h, CALM, n)) == Holding(w, h, s)
    decreases n
  {
    if n > 0 {
      WaitStep(w, h, s);
      hide Apply;
      OneStep(Holding(w, h, s), h, CALM, n);
      WaitSteps(w, h, s, n - 1);
    }
  }

  lemma WaitStep(w: World, h: Identity, s: Helper)
    requires Undisturbed(w, h, s) && s.pc.PinWait? && !Dead(w, s.pc.prior.session)
    ensures Apply(Holding(w, h, s), Advance(h, CALM)) == Holding(w, h, s)
  {
    var w' := Holding(w, h, s);
    DecideIsClaim(w', s, CALM);
    assert DecideClaim(w', s, CALM) == Stay;
    hide DecideClaim, Decide, Apply;
    DecisionTaken(w', h, CALM);
  }

  lemma SentIsSilent(w: World, h: Identity, s: Helper, target: Identity)
    requires Undisturbed(w, h, s)
    ensures var w' := Sent(w, h, s, target);
            && Undisturbed(w', h, s) && SameView(w, w') && (Dead(w', target) <==> Dead(w, target))
            && FindListener(w', s.claim.host, s.claim.port) == FindListener(w, s.claim.host, s.claim.port)
  {
    SameListing(w, Sent(w, h, s, target), s.claim.host, s.claim.port);
    hide FindListener;
  }

  /** What comes of an old session that is to be replaced. */
  ghost function Succession(w: World, h: Identity, s: Helper, prior: Record): World
    requires s.self.Known?
  {
    if !Present(w, prior.session) then Outcome(w, h, s, FinalFate(w, s.claim, false))
    else
      var w' := Sent(w, h, s, prior.session);
      if Dead(w, prior.session) then Outcome(w', h, s, FinalFate(w, s.claim, true))
      else Holding(w', h, s.(pc := PinWait(prior, prior.session, false)))
  }

  lemma SameSuccession(w: World, h: Identity, s: Helper, s': Helper, prior: Record)
    requires s.self.Known? && s' == s.(pc := s'.pc)
    ensures Succession(w, h, s', prior) == Succession(w, h, s, prior)
  {
    hide FindListener;
  }

  /** Waiting for the signalled session: past it once it is dead, and no further before. */
  lemma WaitStage(w: World, h: Identity, s: Helper, n: nat)
    requires Undisturbed(w, h, s) && s.pc.PinWait? && n >= 4
    ensures RunFrom(Holding(w, h, s), Steps(h, CALM, n))
            == if Dead(w, s.pc.prior.session) then Outcome(w, h, s, FinalFate(w, s.claim, true)) else Holding(w, h, s)
  {
    hide RunFrom, Steps, Apply, FindListener, Holding, Registered, Rejected, Dead, Present;
    var prior := s.pc.prior;
    if Dead(w, prior.session) {
      var last := s.(pc := FinalCheckAfter(prior, true));
      Chain(w, h, s, CALM, FinalCheckAfter(prior, true), n);
      FinalStage(w, h, last, n - 1);
      SameOutcome(w, h, s, last);
    } else {
      WaitSteps(w, h, s, n);
    }
  }

  lemma SignalStage(w: World, h: Identity, s: Helper, n: nat)
    requires Undisturbed(w, h, s) && s.pc.PinSignal? && !s.pc.kill && s.pc.target == s.pc.prior.session
    requires Present(w, s.pc.target) && n >= 5
    ensures RunFrom(Holding(w, h, s), Steps(h, CALM, n)) == Succession(w, h, s, s.pc.prior)
  {
    hide RunFrom, Steps, Apply, FindListener, Holding, Registered, Rejected, Sent;
    Sends(w, h, s);
    SentIsSilent(w, h, s, s.pc.target);
    var w' := Sent(w, h, s, s.pc.target);
    var waiting := s.(pc := PinWait(s.pc.prior, s.pc.target, false));
    OneStep(Holding(w, h, s), h, CALM, n);
    WaitStage(w', h, waiting, n - 1);
    SameOutcome(w', h, s, waiting);
  }

  /** Pinned, checked again, signalled once; and on to the last look if it is dead already. */
  lemma PinStage(w: World, h: Identity, s: Helper, n: nat)
    requires Undisturbed(w, h, s) && s.pc.PinOpen? && Present(w, s.pc.prior.session) && n >= 8
    ensures RunFrom(Holding(w, h, s), Steps(h, CALM, n)) == Succession(w, h, s, s.pc.prior)
  {
    hide RunFrom, Steps, Apply, FindListener, Holding, Succession;
    var aimed := s.(pc := PinSignal(s.pc.prior, s.pc.prior.session, false));
    PinnedStage(w, h, s, n);
    SignalStage(w, h, aimed, n - 3);
    SameSuccession(w, h, s, aimed, s.pc.prior);
  }

  lemma PinnedStage(w: World, h: Identity, s: Helper, n: nat)
    requires Undisturbed(w, h, s) && s.pc.PinOpen? && Present(w, s.pc.prior.session) && n >= 3
    ensures RunFrom(Holding(w, h, s), Steps(h, CALM, n))
            == RunFrom(Holding(w, h, s.(pc := PinSignal(s.pc.prior, s.pc.prior.session, false))), Steps(h, CALM, n - 3))
  {
    hide RunFrom, Steps, Apply, FindListener, Holding;
    var prior := s.pc.prior;
    Chain(w, h, s, CALM, PinSetOwner(prior), n);
    Chain(w, h, s.(pc := PinSetOwner(prior)), CALM, PinRecheck(prior, prior.session), n - 1);
    Chain(w, h, s.(pc := PinRecheck(prior, prior.session)), CALM, PinSignal(prior, prior.session, false), n - 2);
  }

  // ---------- past the old session ----------

  ghost function AfterOld(w: World, h: Identity, s: Helper, prior: Record): World
    requires s.self.Known?
  {
    if prior.session == s.self.session then Rejected(w, h, s, OwnershipMismatch)
    else if !AtOneAddress(prior.claim, s.claim) && !Free(w, s.claim.host, s.claim.port) then Rejected(w, h, s, NewAddressOccupied)
    else Succession(w, h, s, prior)
  }

  lemma SameAfterOld(w: World, h: Identity, s: Helper, s': Helper, prior: Record)
    requires s.self.Known? && s' == s.(pc := s'.pc)
    ensures AfterOld(w, h, s', prior) == AfterOld(w, h, s, prior)
  {
    hide FindListener, Succession;
    SameSuccession(w, h, s, s', prior);
  }

  lemma ReplaceStage(w: World, h: Identity, s: Helper, prior: Record, n: nat)
    requires Undisturbed(w, h, s) && ClaimStep(s.pc) && !Writing(s.pc) && n >= 9
    requires DecideClaim(w, s, CALM) == Reclaim(prior, Present(w, prior.session))
    ensures RunFrom(Holding(w, h, s), Steps(h, CALM, n)) == Succession(w, h, s, prior)
  {
    var live := Present(w, prior.session);
    hide RunFrom, Steps, Apply, FindListener, Holding, DecideClaim, ClaimStep, Registered, Rejected, FinalFate;
    var next := if live then PinOpen(prior) else GoneCheck(prior);
    Chain(w, h, s, CALM, next, n);
    if live {
      PinStage(w, h, s.(pc := next), n - 1);
      SameSuccession(w, h, s, s.(pc := next), prior);
    } else {
      GoneStage(w, h, s.(pc := next), n - 1);
      SameOutcome(w, h, s, s.(pc := next));
    }
  }

  lemma ElsewhereStage(w: World, h: Identity, s: Helper, n: nat)
    requires Undisturbed(w, h, s) && s.pc.NewAddress? && s.pc.live == Present(w, s.pc.prior.session) && n >= 10
    ensures RunFrom(Holding(w, h, s), Steps(h, CALM, n))
            == if Free(w, s.claim.host, s.claim.port) then Succession(w, h, s, s.pc.prior) else Rejected(w, h, s, NewAddressOccupied)
  {
    hide RunFrom, Steps, Apply, FindListener, Holding, Rejected, Succession;
    var found, prior := FindListener(w, s.claim.host, s.claim.port), s.pc.prior;
    var probe := s.(pc := NewProbe(prior, s.pc.live));
    if found.One? {
      Refusal(w, h, s, NewAddressOccupied, n);
    } else {
      Chain(w, h, s, CALM, NewProbe(prior, s.pc.live), n);
      if found.NoListener? {
        ReplaceStage(w, h, probe, prior, n - 1);
        SameSuccession(w, h, s, probe, prior);
      } else {
        Refusal(w, h, probe, NewAddressOccupied, n - 1);
        SameOutcome(w, h, s, probe);
      }
    }
  }

  lemma OnwardStage(w: World, h: Identity, s: Helper, prior: Record, n: nat)
    requires Undisturbed(w, h, s) && ClaimStep(s.pc) && !Writing(s.pc) && n >= 11
    requires DecideClaim(w, s, CALM) == Onward(s, prior, Present(w, prior.session))
    ensures RunFrom(Holding(w, h, s), Steps(h, CALM, n)) == AfterOld(w, h, s, prior)
  {
    hide RunFrom, Steps, Apply, FindListener, Holding, Rejected, Succession, DecideClaim, ClaimStep;
    var live := Present(w, prior.session);
    if prior.session == s.self.session {
      Refusal(w, h, s, OwnershipMismatch, n);
    } else if AtOneAddress(prior.claim, s.claim) {
      ReplaceStage(w, h, s, prior, n);
    } else {
      var next := s.(pc := NewAddress(prior, live));
      Chain(w, h, s, CALM, NewAddress(prior, live), n);
      ElsewhereStage(w, h, next, n - 1);
      SameSuccession(w, h, s, next, prior);
      SameOutcome(w, h, s, next);
    }
  }

  // ---------- the old listener and the old session ----------

  ghost function AfterListener(w: World, h: Identity, s: Helper, prior: Record): World
    requires s.self.Known?
  {
    if OldAddressClear(w, prior) then AfterOld(w, h, s, prior) else Rejected(w, h, s, UnmanagedConflict)
  }

  lemma LiveStage(w: World, h: Identity, s: Helper, n: nat)
    requires Undisturbed(w, h, s) && s.pc.OldLive? && n >= 12
    requires s.pc.bound || Free(w, s.pc.prior.claim.host, s.pc.prior.claim.port)
    ensures RunFrom(Holding(w, h, s), Steps(h, CALM, n))
            == if Present(w, s.pc.prior.session) || !s.pc.bound then AfterOld(w, h, s, s.pc.prior) else Rejected(w, h, s, UnmanagedConflict)
  {
    hide RunFrom, Steps, Apply, FindListener, Holding, Rejected, AfterOld;
    var prior := s.pc.prior;
    if Present(w, prior.session) {
      OnwardStage(w, h, s, prior, n);
    } else if s.pc.bound {
      Refusal(w, h, s, UnmanagedConflict, n);
    } else {
      var next := s.(pc := OldGoneProbe(prior));
      Chain(w, h, s, CALM, OldGoneProbe(prior), n);
      OnwardStage(w, h, next, prior, n - 1);
      SameAfterOld(w, h, s, next, prior);
    }
  }

  lemma OwnerStage(w: World, h: Identity, s: Helper, n: nat)
    requires Undisturbed(w, h, s) && s.pc.OldOwner? && n >= 13
    ensures var prior, row := s.pc.prior, s.pc.row;
            RunFrom(Holding(w, h, s), Steps(h, CALM, n))
            == if Present(w, prior.session) && !OwnedBy(w, prior.session.pid, row.inode).NotOwned?
                  && (prior.phase.Confirmed? ==> prior.phase.listener == SocketProof(row.uid, row.inode))
               then AfterOld(w, h, s, prior) else Rejected(w, h, s, UnmanagedConflict)
  {
    hide RunFrom, Steps, Apply, FindListener, Holding, Rejected, AfterOld;
    var prior, row := s.pc.prior, s.pc.row;
    var next := s.(pc := OldLive(prior, true));
    if OwnedBy(w, prior.session.pid, row.inode).NotOwned?
       || (prior.phase.Confirmed? && prior.phase.listener != SocketProof(row.uid, row.inode)) {
      Refusal(w, h, s, UnmanagedConflict, n);
    } else {
      Chain(w, h, s, CALM, OldLive(prior, true), n);
      LiveStage(w, h, next, n - 1);
      SameAfterOld(w, h, s, next, prior);
      SameOutcome(w, h, s, next);
    }
  }

  lemma FreeListenerStage(w: World, h: Identity, s: Helper, n: nat)
    requires Undisturbed(w, h, s) && s.pc.OldListener? && Free(w, s.pc.prior.claim.host, s.pc.prior.claim.port) && n >= 14
    ensures RunFrom(Holding(w, h, s), Steps(h, CALM, n)) == AfterOld(w, h, s, s.pc.prior)
  {
    hide RunFrom, Steps, Apply, FindListener, Holding, Rejected, AfterOld;
    var prior := s.pc.prior;
    var next, live := s.(pc := OldProbe(prior)), s.(pc := OldLive(prior, false));
    Chain(w, h, s, CALM, OldProbe(prior), n);
    Chain(w, h, next, CALM, OldLive(prior, false), n - 1);
    LiveStage(w, h, live, n - 2);
    SameAfterOld(w, h, s, live, prior);
  }

  lemma TakenListenerStage(w: World, h: Identity, s: Helper, row: Listener, n: nat)
    requires Undisturbed(w, h, s) && s.pc.OldListener? && n >= 14
    requires FindListener(w, s.pc.prior.claim.host, s.pc.prior.claim.port) == One(row)
    ensures var prior := s.pc.prior;
            RunFrom(Holding(w, h, s), Steps(h, CALM, n))
            == if row.uid == prior.session.uid && Present(w, prior.session) && !OwnedBy(w, prior.session.pid, row.inode).NotOwned?
                  && (prior.phase.Confirmed? ==> prior.phase.listener == SocketProof(row.uid, row.inode))
               then AfterOld(w, h, s, prior) else Rejected(w, h, s, UnmanagedConflict)
  {
    hide RunFrom, Steps, Apply, FindListener, Holding, Rejected, AfterOld;
    var prior := s.pc.prior;
    if row.uid != prior.session.uid {
      Refusal(w, h, s, UnmanagedConflict, n);
    } else {
      var next := s.(pc := OldOwner(prior, row));
      Chain(w, h, s, CALM, OldOwner(prior, row), n);
      OwnerStage(w, h, next, n - 1);
      SameAfterOld(w, h, s, next, prior);
      SameOutcome(w, h, s, next);
    }
  }

  lemma ListenerStage(w: World, h: Identity, s: Helper, n: nat)
    requires Undisturbed(w, h, s) && s.pc.OldListener? && n >= 14
    ensures RunFrom(Holding(w, h, s), Steps(h, CALM, n)) == AfterListener(w, h, s, s.pc.prior)
  {
    hide RunFrom, Steps, Apply, FindListener, Holding, Rejected, AfterOld, Undisturbed;
    match FindListener(w, s.pc.prior.claim.host, s.pc.prior.claim.port)
    case NoListener => FreeListenerStage(w, h, s, n);
    case One(row) => TakenListenerStage(w, h, s, row, n);
    case Ambiguous => AmbiguousListenerStage(w, h, s, n);
  }

  lemma AmbiguousListenerStage(w: World, h: Identity, s: Helper, n: nat)
    requires Undisturbed(w, h, s) && s.pc.OldListener? && n >= 14
    requires FindListener(w, s.pc.prior.claim.host, s.pc.prior.claim.port).Ambiguous?
    ensures RunFrom(Holding(w, h, s), Steps(h, CALM, n)) == Rejected(w, h, s, UnmanagedConflict)
  {
    hide RunFrom, Steps, Apply, FindListener, Holding, Rejected;
    Refusal(w, h, s, UnmanagedConflict, n);
  }

  ghost function AfterSession(w: World, h: Identity, s: Helper, prior: Record): World
    requires s.self.Known?
  {
    if Present(w, prior.session) && !KeepsConnection(w, prior) then Rejected(w, h, s, OwnershipMismatch)
    else AfterListener(w, h, s, prior)
  }

  lemma SameAfterListener(w: World, h: Identity, s: Helper, s': Helper, prior: Record)
    requires s.self.Known? && s' == s.(pc := s'.pc)
    ensures AfterListener(w, h, s', prior) == AfterListener(w, h, s, prior)
  {
    hide FindListener, AfterOld;
    SameAfterOld(w, h, s, s', prior);
  }

  lemma SessionStage(w: World, h: Identity, s: Helper, n: nat)
    requires Undisturbed(w, h, s) && s.pc.OldIdentity? && n >= 19
    ensures RunFrom(Holding(w, h, s), Steps(h, CALM, n)) == AfterSession(w, h, s, s.pc.prior)
  {
    hide RunFrom, Steps, Apply, Holding, Rejected, AfterListener;
    var prior := s.pc.prior;
    var transport, listener := s.(pc := OldTransport(prior)), s.(pc := OldListener(prior));
    SameAfterListener(w, h, s, listener, prior);
    if !Present(w, prior.session) {
      Chain(w, h, s, CALM, OldListener(prior), n);
      ListenerStage(w, h, listener, n - 1);
    } else {
      Chain(w, h, s, CALM, OldTransport(prior), n);
      if !Connected(w, prior.transport) {
        Refusal(w, h, transport, OwnershipMismatch, n - 1);
        SameOutcome(w, h, s, transport);
      } else {
        Chain(w, h, transport, CALM, OldInode(prior), n - 1);
        DescriptorStage(w, h, s.(pc := OldInode(prior)), n - 2);
        SameAfterListener(w, h, s, s.(pc := OldInode(prior)), prior);
        SameOutcome(w, h, s, s.(pc := OldInode(prior)));
      }
    }
  }

  lemma DescriptorStage(w: World, h: Identity, s: Helper, n: nat)
    requires Undisturbed(w, h, s) && s.pc.OldInode? && Connected(w, s.pc.prior.transport) && n >= 17
    ensures RunFrom(Holding(w, h, s), Steps(h, CALM, n))
            == if KeepsConnection(w, s.pc.prior) then AfterListener(w, h, s, s.pc.prior) else Rejected(w, h, s, OwnershipMismatch)
  {
    hide RunFrom, Steps, Apply, Holding, Rejected, AfterListener;
    var prior := s.pc.prior;
    var inode := w.connections[prior.transport].inode;
    var owner := OwnedBy(w, prior.session.pid, inode);
    var looking, proving, listener := s.(pc := OldDescriptors(prior, inode)), s.(pc := OldProof(prior)), s.(pc := OldListener(prior));
    Chain(w, h, s, CALM, OldDescriptors(prior, inode), n);
    SameAfterListener(w, h, s, listener, prior);
    if owner.Owned? {
      Chain(w, h, looking, CALM, OldListener(prior), n - 1);
      ListenerStage(w, h, listener, n - 2);
    } else if owner.NotOwned? {
      Refusal(w, h, looking, OwnershipMismatch, n - 1);
      SameOutcome(w, h, s, looking);
    } else {
      Chain(w, h, looking, CALM, OldProof(prior), n - 1);
      if w.connections[prior.transport] == prior.sessionProof {
        Chain(w, h, proving, CALM, OldListener(prior), n - 2);
        ListenerStage(w, h, listener, n - 3);
      } else {
        Refusal(w, h, proving, OwnershipMismatch, n - 2);
        SameOutcome(w, h, s, proving);
      }
    }
  }

  ghost function AfterRead(w: World, h: Identity, s: Helper): World
    requires s.self.Known?
  {
    var key := KeyOf(s.claim);
    if key !in w.records then Outcome(w, h, s, FinalFate(w, s.claim, false))
    else if w.records[key].claim.generation >= s.claim.generation then Rejected(w, h, s, OwnershipMismatch)
    else AfterSession(w, h, s, w.records[key])
  }

  lemma ReadStage(w: World, h: Identity, s: Helper, n: nat)
    requires Undisturbed(w, h, s) && s.pc.ClaimRead? && n >= 20
    ensures RunFrom(Holding(w, h, s), Steps(h, CALM, n)) == AfterRead(w, h, s)
  {
    hide RunFrom, Steps, Apply, Holding, Rejected, Registered, FindListener, AfterSession;
    var key := KeyOf(s.claim);
    if key !in w.records {
      Chain(w, h, s, CALM, FinalCheckFresh, n);
      FinalStage(w, h, s.(pc := FinalCheckFresh), n - 1);
      SameOutcome(w, h, s, s.(pc := FinalCheckFresh));
    } else if w.records[key].claim.generation >= s.claim.generation {
      Refusal(w, h, s, OwnershipMismatch, n);
    } else {
      var prior := w.records[key];
      Chain(w, h, s, CALM, OldIdentity(prior), n);
      SessionStage(w, h, s.(pc := OldIdentity(prior)), n - 1);
      SameAfterSession(w, h, s, s.(pc := OldIdentity(prior)), prior);
    }
  }

  lemma SameAfterSession(w: World, h: Identity, s: Helper, s': Helper, prior: Record)
    requires s.self.Known? && s' == s.(pc := s'.pc)
    ensures AfterSession(w, h, s', prior) == AfterSession(w, h, s, prior)
  {
    hide AfterListener;
    SameAfterListener(w, h, s, s', prior);
  }

  // ---------- the whole claim ----------

  /** What the claim registers. */
  function ItsRecord(w: World, h: Identity, session: Identity): Record
    requires h in w.helpers && w.helpers[h].transport in w.connections
  {
    var s := w.helpers[h];
    Record(s.claim, Claimed, session, h, s.transport, w.connections[s.transport])
  }

  /** Everything but the helpers, the locks, the registry and the signals is as it was. */
  predicate SystemUntouched(w: World, w': World) {
    && SameSystem(w, w') && w'.files == w.files && w'.owners == w.owners && w'.issued == w.issued && w'.released == w.released
  }

  predicate SameSystem(w: World, w': World) {
    w'.procs == w.procs && w'.born == w.born && w'.listeners == w.listeners && w'.connections == w.connections
    && w'.fds == w.fds && w'.hidden == w.hidden
  }

  /** How the world looks after a claim with this fate. */
  ghost predicate EndsAs(w: World, w': World, h: Identity, session: Identity, fate: Fate)
    requires h in w.helpers && w.helpers[h].transport in w.connections
  {
    var claim := w.helpers[h].claim;
    && SystemUntouched(w, w') && h in w'.helpers && w'.helpers[h].claim == claim
    && w'.helpers - {h} == w.helpers - {h}
    && match fate
       case Refuses(code) =>
         w'.helpers[h].pc.Idle? && w'.helpers[h].reply == Refused(code) && !w'.helpers[h].claimed
         && w'.records == w.records && w'.history == w.history && w'.locks == w.locks
       case Registers(reclaimed) =>
         var r := ItsRecord(w, h, session);
         w'.helpers[h].pc.Idle? && w'.helpers[h].reply == ClaimOk(reclaimed) && w'.helpers[h].claimed
         && w'.records == w.records[KeyOf(claim) := r] && w'.history == w.history + [r] && w'.locks == w.locks
       case Waits =>
         KeyOf(claim) in w.records
         && w'.helpers[h].pc == PinWait(w.records[KeyOf(claim)], w.records[KeyOf(claim)].session, false)
         && w'.helpers[h].reply.Pending? && w'.records == w.records && w'.history == w.history && w'.locks == w.locks[KeyOf(claim) := h]
  }

  lemma OthersStay(w: World, h: Identity, s: Helper)
    ensures w.helpers[h := s] - {h} == w.helpers - {h}
  {
  }

  lemma RefusedEnds(w: World, h: Identity, session: Identity, code: Code, sent: seq<Signal>)
    requires MayClaim(w, h, session)
    ensures var w' := Rejected(w.(signals := w.signals + sent), h, Locked(w, h, session), code);
            EndsAs(w, w', h, session, Refuses(code)) && w'.signals == w.signals + sent
  {
    hide OwnSession;
    OthersStay(w, h, Locked(w, h, session).(pc := Idle, reply := Refused(code)));
  }

  lemma RegisteredEnds(w: World, h: Identity, session: Identity, reclaimed: bool, sent: seq<Signal>)
    requires MayClaim(w, h, session)
    ensures var w' := Registered(w.(signals := w.signals + sent), h, Locked(w, h, session), reclaimed);
            EndsAs(w, w', h, session, Registers(reclaimed)) && w'.signals == w.signals + sent
  {
    hide OwnSession;
    OthersStay(w, h, Locked(w, h, session).(claimed := true, pc := Idle, reply := ClaimOk(reclaimed)));
  }

  lemma WaitingEnds(w: World, h: Identity, session: Identity)
    requires MayClaim(w, h, session) && KeyOf(w.helpers[h].claim) in w.records
    ensures var prior, s := w.records[KeyOf(w.helpers[h].claim)], Locked(w, h, session);
            var w' := Holding(Sent(w, h, s, prior.session), h, s.(pc := PinWait(prior, prior.session, false)));
            EndsAs(w, w', h, session, Waits) && w'.signals == w.signals + [SignalTo(w, h, session, prior.session)]
  {
    hide OwnSession;
    var prior := w.records[KeyOf(w.helpers[h].claim)];
    OthersStay(w, h, Locked(w, h, session).(pc := PinWait(prior, prior.session, false)));
  }

  lemma NothingSent(w: World)
    ensures w.(signals := w.signals + []) == w && w.signals + [] == w.signals
  {
    assert w.signals + [] == w.signals;
  }

  lemma SentIs(w: World, h: Identity, session: Identity, target: Identity)
    requires h in w.helpers && w.helpers[h].transport in w.connections
    ensures Sent(w, h, Locked(w, h, session), target) == w.(signals := w.signals + [SignalTo(w, h, session, target)])
    ensures Sent(w, h, Locked(w, h, session), target).signals == w.signals + [SignalTo(w, h, session, target)]
  {
  }

  /** Each way the claim can go is the one foretold. */
  lemma ReadsAsFate(w: World, h: Identity, session: Identity)
    requires MayClaim(w, h, session)
    ensures var s, w' := Locked(w, h, session), AfterRead(w, h, Locked(w, h, session));
            && EndsAs(w, w', h, session, ClaimFate(w, s.claim, session))
            && w'.signals == w.signals + if SignalsPrior(w, s.claim, session)
                                         then [SignalTo(w, h, session, w.records[KeyOf(s.claim)].session)] else []
  {
    hide FindListener, OwnSession, OldAddressClear, KeepsConnection, AtOneAddress, EndsAs, Rejected, Registered, Holding, Free, Sent;
    var s := Locked(w, h, session);
    NothingSent(w);
    forall code ensures EndsAs(w, Rejected(w, h, s, code), h, session, Refuses(code)) && Rejected(w, h, s, code).signals == w.signals {
      RefusedEnds(w, h, session, code, []);
    }
    RegisteredEnds(w, h, session, false, []);
    if KeyOf(s.claim) in w.records {
      var target := w.records[KeyOf(s.claim)].session;
      SentIs(w, h, session, target);
      RefusedEnds(w, h, session, UnmanagedConflict, [SignalTo(w, h, session, target)]);
      RegisteredEnds(w, h, session, true, [SignalTo(w, h, session, target)]);
      WaitingEnds(w, h, session);
    }
  }

  /** The exact outcome of an undisturbed claim of an idle helper with a session of its own, whatever the
      world looks like: granted, refused with this code, or waiting for the session it has signalled; and
      nobody else is touched or signalled. */
  lemma ClaimEndsAsFated(w: World, h: Identity, session: Identity, n: nat)
    requires MayClaim(w, h, session) && n >= 23
    ensures var w' := RunFrom(w, [Request(h, ClaimCommand)] + Steps(h, CALM, n));
            var claim := w.helpers[h].claim;
            && EndsAs(w, w', h, session, ClaimFate(w, claim, session))
            && w'.signals == w.signals + if SignalsPrior(w, claim, session)
                                         then [SignalTo(w, h, session, w.records[KeyOf(claim)].session)] else []
  {
    hide FindListener, OwnSession, RunFrom, Steps, Apply, AfterRead, EndsAs, ClaimFate, SignalsPrior, Holding;
    ClaimGetsLock(w, h, session, n - 3);
    ReadStage(w, h, Locked(w, h, session), n - 3);
    ReadsAsFate(w, h, session);
  }

  /** In particular a claim over a session that is gone is granted when both addresses are free. */
  lemma DeadSessionIsSucceeded(w: World, h: Identity, session: Identity, prior: Record, n: nat)
    requires MayClaim(w, h, session) && LeaseSafety.ProcsOk(w) && n >= 23
    requires KeyOf(w.helpers[h].claim) in w.records && w.records[KeyOf(w.helpers[h].claim)] == prior
    requires prior.claim.generation < w.helpers[h].claim.generation && !Present(w, prior.session)
    requires FindListener(w, prior.claim.host, prior.claim.port).NoListener?
    requires FindListener(w, w.helpers[h].claim.host, w.helpers[h].claim.port).NoListener?
    ensures var w' := RunFrom(w, [Request(h, ClaimCommand)] + Steps(h, CALM, n));
            && h in w'.helpers && w'.helpers[h].reply == ClaimOk(false) && w'.helpers[h].claimed
            && w'.records == w.records[KeyOf(w.helpers[h].claim) := ItsRecord(w, h, session)] && w'.signals == w.signals
  {
    OwnIsPresent(w, h, session);
    hide FindListener, OwnSession, RunFrom, Steps, Apply;
    ClaimEndsAsFated(w, h, session, n);
  }

  lemma OwnIsPresent(w: World, h: Identity, session: Identity)
    requires LeaseSafety.ProcsOk(w) && h in w.helpers && OwnSession(w, h, w.helpers[h].transport) == Ancestor(session)
    ensures Present(w, session)
  {
  }

  /** And a claim over a session that is there, holds its connection openly and alone listens at the
      addresses, signals that session and waits for its end. */
  lemma LiveSessionIsSignalled(w: World, h: Identity, session: Identity, prior: Record, n: nat)
    requires MayClaim(w, h, session) && n >= 23
    requires KeyOf(w.helpers[h].claim) in w.records && w.records[KeyOf(w.helpers[h].claim)] == prior
    requires prior.claim.generation < w.helpers[h].claim.generation && !Dead(w, prior.session) && prior.session != session
    requires Connected(w, prior.transport) && prior.session.pid !in w.hidden
    requires (prior.session.pid, w.connections[prior.transport].inode) in w.fds
    requires FindListener(w, prior.claim.host, prior.claim.port).NoListener?
    requires FindListener(w, w.helpers[h].claim.host, w.helpers[h].claim.port).NoListener?
    ensures var w' := RunFrom(w, [Request(h, ClaimCommand)] + Steps(h, CALM, n));
            && h in w'.helpers && w'.helpers[h].pc == PinWait(prior, prior.session, false) && w'.records == w.records
            && w'.signals == w.signals + [SignalTo(w, h, session, prior.session)]
  {
    hide FindListener, OwnSession, RunFrom, Steps, Apply;
    ClaimEndsAsFated(w, h, session, n);
  }

  /** A helper without a session of its own is refused before it takes the lock. */
  lemma NoSessionNoClaim(w: World, h: Identity, n: nat)
    requires Running(w, h) && w.helpers[h].pc.Idle? && !w.helpers[h].claimed && n >= 1
    requires OwnSession(w, h, w.helpers[h].transport).NoAncestor?
    ensures var w' := RunFrom(w, [Request(h, ClaimCommand)] + Steps(h, CALM, n));
            && w' == w.(helpers := w'.helpers) && h in w'.helpers && w'.helpers - {h} == w.helpers - {h}
            && w'.helpers[h].reply == Refused(OwnershipMismatch) && w'.helpers[h].pc.Idle? && !w'.helpers[h].claimed
  {
    hide OwnSession, Apply, Steps;
    var asked := Asked(w, h);
    var done := asked.(pc := Idle, reply := Refused(OwnershipMismatch));
    var more := Steps(h, CALM, n);
    assert ([Request(h, ClaimCommand)] + more)[1..] == more;
    AsksAnyway(w, h);
    OneStep(With(w, h, asked), h, CALM, n);
    FindsNothing(w, h, asked, done);
    IdleSteps(With(w, h, done), h, CALM, n - 1);
    OthersStay(w, h, done);
  }

  lemma FindsNothing(w: World, h: Identity, asked: Helper, done: Helper)
    requires Running(w, h) && asked == Asked(w, h) && done == asked.(pc := Idle, reply := Refused(OwnershipMismatch))
    requires OwnSession(w, h, w.helpers[h].transport).NoAncestor?
    ensures Apply(With(w, h, asked), Advance(h, CALM)) == With(w, h, done)
  {
    hide OwnSession, Apply;
    SearchTaken(w, h, asked, CALM);
    SameSession(w, With(w, h, asked), h, w.helpers[h].transport);
    assert w.helpers[h := asked][h := done] == w.helpers[h := done];
  }

  lemma AsksAnyway(w: World, h: Identity)
    requires Running(w, h) && w.helpers[h].pc.Idle? && !w.helpers[h].claimed
    ensures Apply(w, Request(h, ClaimCommand)) == With(w, h, Asked(w, h))
  {
  }

  // ---------- a session that does not go ----------

  const LATE: Oracle := CALM.(timeout := true)

  /** A session that outlives its first signal gets a second one, which kills... */
  lemma SecondSignalKills(w: World, h: Identity, s: Helper)
    requires Undisturbed(w, h, s) && s.pc.PinWait? && !s.pc.kill && s.pc.target == s.pc.prior.session && !Dead(w, s.pc.target)
    ensures RunFrom(Holding(w, h, s), [Advance(h, LATE), Advance(h, CALM)])
            == Holding(w.(signals := w.signals + [Signal(h, s.self.session, KeyOf(s.claim), s.claim.generation, s.pc.target, true)]),
                       h, s.(pc := PinWait(s.pc.prior, s.pc.target, true)))
  {
    var aimed := s.(pc := PinSignal(s.pc.prior, s.pc.target, true));
    Kills(w, h, aimed);
    hide Apply, RunFrom, Holding;
    TwoSteps(Holding(w, h, s), Advance(h, LATE), Advance(h, CALM));
    Decides(w, h, s, LATE, PinSignal(s.pc.prior, s.pc.target, true));
  }

  lemma Kills(w: World, h: Identity, s: Helper)
    requires Undisturbed(w, h, s) && s.pc.PinSignal? && s.pc.kill && Present(w, s.pc.target)
    ensures Apply(Holding(w, h, s), Advance(h, CALM))
            == Holding(w.(signals := w.signals + [Signal(h, s.self.session, KeyOf(s.claim), s.claim.generation, s.pc.target, true)]),
                       h, s.(pc := PinWait(s.pc.prior, s.pc.target, true)))
  {
    hide Decide;
    var next := s.(pc := PinWait(s.pc.prior, s.pc.target, true));
    assert w.helpers[h := s][h := next] == w.helpers[h := next];
  }

  /** ...and if it outlives that as well the claim is refused. */
  lemma SurvivorIsLeft(w: World, h: Identity, s: Helper, n: nat)
    requires Undisturbed(w, h, s) && s.pc.PinWait? && s.pc.kill && !Dead(w, s.pc.prior.session) && n > 0
    ensures RunFrom(Holding(w, h, s), Steps(h, LATE, n)) == Rejected(w, h, s, PermissionDenied)
  {
    hide RunFrom, Steps, Refuse, Holding, Rejected;
    RefusedSteps(w, h, s, LATE, PermissionDenied, n);
    IsRejected(w, h, s, PermissionDenied);
  }

  // ---------- an operation of the system that fails ----------

  predicate ProbesOld(pc: Pc) { pc.OldProbe? || pc.OldGoneProbe? }

  predicate ProbesNew(pc: Pc) { pc.GoneProbe? || pc.FinalProbeFresh? || pc.FinalProbeAfter? }

  /** A record that cannot be read, a bind that is not permitted and a signal that cannot be prepared end the
      claim with nothing changed. */
  lemma FaultEndsClaim(w: World, h: Identity, s: Helper, o: Oracle, n: nat)
    requires Undisturbed(w, h, s) && n > 0
    ensures s.pc.ClaimRead? && o.unreadable ==> RunFrom(Holding(w, h, s), Steps(h, o, n)) == Rejected(w, h, s, OwnershipMismatch)
    ensures (ProbesOld(s.pc) || ProbesNew(s.pc)) && o.bindDenied && !o.bindError ==>
              RunFrom(Holding(w, h, s), Steps(h, o, n)) == Rejected(w, h, s, UnmanagedConflict)
    ensures s.pc.NewProbe? && o.bindDenied && !o.bindError ==>
              RunFrom(Holding(w, h, s), Steps(h, o, n)) == Rejected(w, h, s, NewAddressOccupied)
    ensures s.pc.PinSetOwner? && o.signalFails ==>
              RunFrom(Holding(w, h, s), Steps(h, o, n)) == Rejected(w, h, s, PermissionDenied)
  {
    hide RunFrom, Steps, Refuse, Holding, Rejected, FindListener, Apply;
    if s.pc.ClaimRead? && o.unreadable {
      RefusedSteps(w, h, s, o, OwnershipMismatch, n);
      IsRejected(w, h, s, OwnershipMismatch);
    } else if (ProbesOld(s.pc) || ProbesNew(s.pc)) && o.bindDenied && !o.bindError {
      RefusedSteps(w, h, s, o, UnmanagedConflict, n);
      IsRejected(w, h, s, UnmanagedConflict);
    } else if s.pc.NewProbe? && o.bindDenied && !o.bindError {
      RefusedSteps(w, h, s, o, NewAddressOccupied, n);
      IsRejected(w, h, s, NewAddressOccupied);
    } else if s.pc.PinSetOwner? && o.signalFails {
      RefusedSteps(w, h, s, o, PermissionDenied, n);
      IsRejected(w, h, s, PermissionDenied);
    }
  }

  /** The signal itself may fail, and so may the lock; before the lock the connection may be gone. */
  lemma FaultEndsStep(w: World, h: Identity, s: Helper, o: Oracle)
    requires Undisturbed(w, h, s)
    ensures s.pc.PinSignal? && o.signalFails ==> Apply(Holding(w, h, s), Advance(h, o)) == Rejected(w, h, s, PermissionDenied)
    ensures Locking(s.pc) && o.lockFails ==> Apply(With(w, h, s), Advance(h, o)) == Rejected(w, h, s, PermissionDenied)
    ensures s.pc.ClaimTransport? && !Connected(w, s.transport) ==>
              Apply(With(w, h, s), Advance(h, o)) == Rejected(w, h, s, OwnershipMismatch)
  {
    IsRejected(w, h, s, PermissionDenied);
    hide Decide, OwnSession;
    forall code ensures With(With(w, h, s), h, s.(pc := Idle, reply := Refused(code))) == Rejected(w, h, s, code) {
      assert w.helpers[h := s][h := s.(pc := Idle, reply := Refused(code))] == w.helpers[h := s.(pc := Idle, reply := Refused(code))];
    }
  }

  /** One helper, one lease: a second claim is refused whatever became of the first. */
  lemma SecondClaimIsRefused(w: World, h: Identity)
    requires Running(w, h) && w.helpers[h].pc.Idle? && w.helpers[h].claimed
    ensures var w' := Apply(w, Request(h, ClaimCommand));
            && w' == w.(helpers := w'.helpers) && h in w'.helpers && w'.helpers[h].pc.Idle? && w'.helpers[h].claimed
            && w'.helpers[h].reply == Refused(InvalidRequest)
  {
  }

  // ---------- a write that fails ----------

  /** A record that could not be written, or not for sure, is no claim, and no confirmation: the helper says
      so, and the old record stands unless the new one took its place before the failure. */
  lemma FailedWriteIsNoClaim(w: World, h: Identity, o: Oracle)
    requires Running(w, h) && w.helpers[h].self.Known? && Writing(w.helpers[h].pc) && !o.write.Written?
    ensures var s, w' := w.helpers[h], Apply(w, Advance(h, o));
            && h in w'.helpers && w'.helpers[h].pc.Idle? && w'.helpers[h].reply == Refused(IoError) && KeyOf(s.claim) !in w'.locks
            && w'.helpers[h].claimed == s.pc.ConfirmWrite? && w'.signals == w.signals
            && w'.records == if o.write.NotWritten? then w.records
                             else w.records[KeyOf(s.claim) := Record(s.claim, WritePhase(s.pc), s.self.session, h, s.transport, s.self.proof)]
  {
    var s := w.helpers[h];
    assert Apply(w, Advance(h, o)) == Commit(w, h, MakeRecord(s, h, WritePhase(s.pc)), o, WriteReply(s.pc));
  }
}
