/** What an undisturbed helper answers to a confirmation and to a release, in every world
    (crates/fwm-core/src/cleanup/native_helper.c, `confirm_op`, `release_op`). */
module LeaseAnswers {
  import opened Basics
  import opened Recovery
  import opened LeaseWorld
  import opened LeaseRuns
  import opened LeaseOutcomes

  // ---------- the confirmation ----------

  predicate HasClaimed(w: World, h: Identity, token: Claim) {
    && Running(w, h) && w.helpers[h].pc.Idle? && w.helpers[h].claimed && w.helpers[h].self.Known?
    && SameToken(token, w.helpers[h].claim) && KeyOf(w.helpers[h].claim) !in w.locks
  }

  /** The claim of this helper is the one in the registry. */
  predicate LeaseStands(w: World, claim: Claim) {
    KeyOf(claim) in w.records
    && var r := w.records[KeyOf(claim)].claim;
       r.owner == claim.owner && r.rule == claim.rule && r.generation == claim.generation && r.session == claim.session
  }

  /** What a confirmation is answered: the registry still names this claim, the session still has its
      connection, and exactly one listener is listed, at the address itself, of the session's user, and held
      by the session or hidden under the connection the record names. */
  ghost function ConfirmAnswer(w: World, s: Helper): Reply
    requires s.self.Known?
  {
    var found := FindListener(w, s.claim.host, s.claim.port);
    if !LeaseStands(w, s.claim) then Refused(Superseded)
    else if !Present(w, s.self.session) || !Connected(w, s.transport) || w.connections[s.transport] != s.self.proof
    then Refused(OwnershipMismatch)
    else if !found.One? then Refused(ListenerMissing)
    else if found.row.host != s.claim.host then Refused(OwnershipMismatch)
    else if found.row.uid != s.self.session.uid then Refused(UnmanagedConflict)
    else
      var owner := OwnedBy(w, s.self.session.pid, found.row.inode);
      if owner.Owned? || (owner.Denied? && w.records[KeyOf(s.claim)].sessionProof == s.self.proof) then ConfirmOk
      else Refused(UnmanagedConflict)
  }

  lemma SameConfirm(w: World, w': World, s: Helper, o: Oracle)
    requires SameView(w, w') && s.self.Known?
    ensures DecideConfirm(w', s, o) == DecideConfirm(w, s, o)
  {
    SameListing(w, w', s.claim.host, s.claim.port);
    hide FindListener;
  }

  lemma DecideIsConfirm(w: World, s: Helper, o: Oracle)
    requires s.self.Known? && Confirming(s.pc)
    ensures Deciding(s.pc) && Decide(w, s, o) == DecideConfirm(w, s, o)
  {
    hide DecideClaim, DecideConfirm;
  }

  lemma ConfirmChain(w: World, h: Identity, s: Helper, next: Pc, n: nat)
    requires Undisturbed(w, h, s) && Confirming(s.pc) && DecideConfirm(w, s, CALM) == Go(next) && n > 0
    ensures RunFrom(Holding(w, h, s), Steps(h, CALM, n)) == RunFrom(Holding(w, h, s.(pc := next)), Steps(h, CALM, n - 1))
  {
    hide DecideConfirm, Decide, Apply, Goto, Deciding, Confirming, RunFrom, Steps;
    var w' := Holding(w, h, s);
    SameConfirm(w, w', s, CALM);
    DecideIsConfirm(w', s, CALM);
    DecisionTaken(w', h, CALM);
    HoldingOn(w, h, s, next);
    OneStep(w', h, CALM, n);
  }

  lemma ConfirmRefusal(w: World, h: Identity, s: Helper, code: Code, n: nat)
    requires Undisturbed(w, h, s) && Confirming(s.pc) && DecideConfirm(w, s, CALM) == Fail(code) && n > 0
    ensures RunFrom(Holding(w, h, s), Steps(h, CALM, n)) == Rejected(w, h, s, code)
  {
    hide DecideConfirm, Decide, Apply, Refuse, Deciding, Confirming, RunFrom, Steps;
    var w' := Holding(w, h, s);
    SameConfirm(w, w', s, CALM);
    DecideIsConfirm(w', s, CALM);
    StillRunning(w, h, s, code);
    DecisionTaken(w', h, CALM);
    OneStep(w', h, CALM, n);
    assert Apply(w', Advance(h, CALM)) == Refuse(w', h, code);
    IdleSteps(Refuse(w', h, code), h, CALM, n - 1);
    IsRejected(w, h, s, code);
  }

  /** The confirmed record is in place. */
  function Settles(w: World, h: Identity, s: Helper, row: Listener): World
    requires s.self.Known?
  {
    var r := Record(s.claim, Confirmed(SocketProof(row.uid, row.inode)), s.self.session, h, s.transport, s.self.proof);
    With(w, h, s.(pc := Idle, reply := ConfirmOk)).(records := w.records[KeyOf(s.claim) := r], history := w.history + [r])
  }

  lemma SettleStep(w: World, h: Identity, s: Helper, row: Listener)
    requires Undisturbed(w, h, s) && s.claimed && s.pc == ConfirmWrite(SocketProof(row.uid, row.inode))
    ensures Apply(Holding(w, h, s), Advance(h, CALM)) == Settles(w, h, s, row)
  {
    var w', key, r := Holding(w, h, s), KeyOf(s.claim), MakeRecord(s, h, Confirmed(s.pc.proof));
    var done := s.(pc := Idle, reply := ConfirmOk);
    assert Apply(w', Advance(h, CALM)) == Commit(w', h, r, CALM, ConfirmOk);
    assert w.locks[key := h] - {key} == w.locks && w.helpers[h := s][h := done] == w.helpers[h := done];
  }

  lemma SettleStage(w: World, h: Identity, s: Helper, row: Listener, n: nat)
    requires Undisturbed(w, h, s) && s.claimed && s.pc == ConfirmWrite(SocketProof(row.uid, row.inode)) && n > 0
    ensures RunFrom(Holding(w, h, s), Steps(h, CALM, n)) == Settles(w, h, s, row)
  {
    hide RunFrom, Steps, Apply, Holding;
    SettleStep(w, h, s, row);
    OneStep(Holding(w, h, s), h, CALM, n);
    IdleSteps(Settles(w, h, s, row), h, CALM, n - 1);
  }

  ghost function ConfirmOutcome(w: World, h: Identity, s: Helper): World
    requires s.self.Known?
  {
    match ConfirmAnswer(w, s)
    case Refused(code) => Rejected(w, h, s, code)
    case _ =>
      var found := FindListener(w, s.claim.host, s.claim.port);
      if found.One? then Settles(w, h, s, found.row) else w
  }

  lemma SameSettles(w: World, h: Identity, s: Helper, s': Helper, row: Listener)
    requires s.self.Known? && s' == s.(pc := s'.pc)
    ensures Settles(w, h, s', row) == Settles(w, h, s, row)
  {
  }

  lemma SameConfirmed(w: World, h: Identity, s: Helper, s': Helper)
    requires s.self.Known? && s' == s.(pc := s'.pc)
    ensures ConfirmOutcome(w, h, s') == ConfirmOutcome(w, h, s)
  {
    hide FindListener, LeaseStands, OwnedBy, Present, Connected, Rejected, Settles;
    SameOutcome(w, h, s, s');
    forall row ensures Settles(w, h, s', row) == Settles(w, h, s, row) {
      SameSettles(w, h, s, s', row);
    }
  }

  lemma ConfirmOwnerStage(w: World, h: Identity, s: Helper, n: nat)
    requires Undisturbed(w, h, s) && s.claimed && s.pc.ConfirmOwner? && n >= 2
    requires FindListener(w, s.claim.host, s.claim.port) == One(s.pc.row) && LeaseStands(w, s.claim)
    requires Present(w, s.self.session) && Connected(w, s.transport) && w.connections[s.transport] == s.self.proof
    requires s.pc.row.host == s.claim.host && s.pc.row.uid == s.self.session.uid
    ensures RunFrom(Holding(w, h, s), Steps(h, CALM, n)) == ConfirmOutcome(w, h, s)
  {
    hide RunFrom, Steps, FindListener, Holding, Rejected, Settles;
    var row := s.pc.row;
    var write := ConfirmWrite(SocketProof(row.uid, row.inode));
    if ConfirmAnswer(w, s).ConfirmOk? {
      ConfirmChain(w, h, s, write, n);
      SettleStage(w, h, s.(pc := write), row, n - 1);
      SameSettles(w, h, s, s.(pc := write), row);
    } else {
      ConfirmRefusal(w, h, s, UnmanagedConflict, n);
    }
  }

  lemma ConfirmListenerStage(w: World, h: Identity, s: Helper, n: nat)
    requires Undisturbed(w, h, s) && s.claimed && s.pc.ConfirmListener? && LeaseStands(w, s.claim) && n >= 3
    requires Present(w, s.self.session) && Connected(w, s.transport) && w.connections[s.transport] == s.self.proof
    ensures RunFrom(Holding(w, h, s), Steps(h, CALM, n)) == ConfirmOutcome(w, h, s)
  {
    hide RunFrom, Steps, FindListener, Holding, Rejected, Settles, OwnedBy;
    var found := FindListener(w, s.claim.host, s.claim.port);
    if !found.One? {
      ConfirmRefusal(w, h, s, ListenerMissing, n);
    } else if found.row.host != s.claim.host {
      ConfirmRefusal(w, h, s, OwnershipMismatch, n);
    } else if found.row.uid != s.self.session.uid {
      ConfirmRefusal(w, h, s, UnmanagedConflict, n);
    } else {
      var next := s.(pc := ConfirmOwner(found.row));
      ConfirmChain(w, h, s, ConfirmOwner(found.row), n);
      ConfirmOwnerStage(w, h, next, n - 1);
      SameConfirmed(w, h, s, next);
    }
  }

  lemma ConfirmReadStage(w: World, h: Identity, s: Helper, n: nat)
    requires Undisturbed(w, h, s) && s.claimed && s.pc.ConfirmRead? && n >= 6
    ensures RunFrom(Holding(w, h, s), Steps(h, CALM, n)) == ConfirmOutcome(w, h, s)
  {
    hide RunFrom, Steps, FindListener, Holding, Rejected, Settles, OwnedBy;
    var identity, transport, listener := s.(pc := ConfirmIdentity), s.(pc := ConfirmTransport), s.(pc := ConfirmListener);
    SameConfirmed(w, h, s, listener);
    SameOutcome(w, h, s, identity);
    SameOutcome(w, h, s, transport);
    if !LeaseStands(w, s.claim) {
      ConfirmRefusal(w, h, s, Superseded, n);
    } else {
      ConfirmChain(w, h, s, ConfirmIdentity, n);
      if !Present(w, s.self.session) {
        ConfirmRefusal(w, h, identity, OwnershipMismatch, n - 1);
      } else {
        ConfirmChain(w, h, identity, ConfirmTransport, n - 1);
        if !Connected(w, s.transport) || w.connections[s.transport] != s.self.proof {
          ConfirmRefusal(w, h, transport, OwnershipMismatch, n - 2);
        } else {
          ConfirmChain(w, h, transport, ConfirmListener, n - 2);
          ConfirmListenerStage(w, h, listener, n - 3);
        }
      }
    }
  }

  /** The helper after it read a request that goes on to the registry. */
  function Told(w: World, h: Identity, pc: Pc): Helper
    requires h in w.helpers
  {
    w.helpers[h].(reply := Pending, mark := |w.signals|, pc := pc)
  }

  lemma TakesTheLock(w: World, h: Identity, token: Claim, confirms: bool, n: nat)
    requires HasClaimed(w, h, token) && n > 0
    ensures var command := if confirms then ConfirmCommand(token, true) else ReleaseCommand(token);
            RunFrom(w, [Request(h, command)] + Steps(h, CALM, n))
            == RunFrom(Holding(w, h, Told(w, h, if confirms then ConfirmRead else ReleaseRead)), Steps(h, CALM, n - 1))
  {
    var command := if confirms then ConfirmCommand(token, true) else ReleaseCommand(token);
    var waiting, inside := Told(w, h, if confirms then ConfirmLock else ReleaseLock), Told(w, h, if confirms then ConfirmRead else ReleaseRead);
    assert Apply(w, Request(h, command)) == With(w, h, waiting);
    assert w.helpers[h := waiting][h := inside] == w.helpers[h := inside];
    Enters(w, h, waiting, inside);
    hide Apply, Steps;
    assert ([Request(h, command)] + Steps(h, CALM, n))[1..] == Steps(h, CALM, n);
    OneStep(With(w, h, waiting), h, CALM, n);
  }

  lemma Enters(w: World, h: Identity, waiting: Helper, inside: Helper)
    requires Running(w, h) && KeyOf(waiting.claim) !in w.locks && (waiting.pc.ConfirmLock? || waiting.pc.ReleaseLock?)
    requires inside == waiting.(pc := if waiting.pc.ConfirmLock? then ConfirmRead else ReleaseRead)
    ensures Apply(With(w, h, waiting), Advance(h, CALM)) == Holding(w, h, inside)
  {
    hide Decide;
    assert w.helpers[h := waiting][h := inside] == w.helpers[h := inside];
  }

  /** The confirmed record is in place exactly if the answer is positive. */
  ghost predicate AnsweredAs(w: World, w': World, h: Identity, answer: Reply)
    requires h in w.helpers && w.helpers[h].self.Known?
  {
    var s, found := w.helpers[h], FindListener(w, w.helpers[h].claim.host, w.helpers[h].claim.port);
    && h in w'.helpers && w'.helpers[h].pc.Idle? && w'.helpers[h].reply == answer && w'.helpers[h].claimed
    && w'.locks == w.locks && w'.signals == w.signals && SystemUntouched(w, w') && w'.helpers - {h} == w.helpers - {h}
    && (answer.ConfirmOk? ==> found.One?)
    && w'.records == if answer.ConfirmOk?
                     then w.records[KeyOf(s.claim) := Record(s.claim, Confirmed(SocketProof(found.row.uid, found.row.inode)),
                                                             s.self.session, h, s.transport, s.self.proof)]
                     else w.records
  }

  lemma RejectedAnswer(w: World, h: Identity, code: Code)
    requires h in w.helpers && w.helpers[h].self.Known? && w.helpers[h].claimed
    ensures AnsweredAs(w, Rejected(w, h, Told(w, h, ConfirmRead), code), h, Refused(code))
  {
    hide FindListener;
    OthersStay(w, h, Told(w, h, ConfirmRead).(pc := Idle, reply := Refused(code)));
  }

  lemma SettledAnswer(w: World, h: Identity, row: Listener)
    requires h in w.helpers && w.helpers[h].self.Known? && w.helpers[h].claimed
    requires FindListener(w, w.helpers[h].claim.host, w.helpers[h].claim.port) == One(row)
    ensures AnsweredAs(w, Settles(w, h, Told(w, h, ConfirmRead), row), h, ConfirmOk)
  {
    hide FindListener;
    OthersStay(w, h, Told(w, h, ConfirmRead).(pc := Idle, reply := ConfirmOk));
  }

  lemma OutcomeIsAnswered(w: World, h: Identity)
    requires h in w.helpers && w.helpers[h].self.Known? && w.helpers[h].claimed
    ensures AnsweredAs(w, ConfirmOutcome(w, h, Told(w, h, ConfirmRead)), h, ConfirmAnswer(w, w.helpers[h]))
  {
    hide FindListener, AnsweredAs, Rejected, Settles, LeaseStands, OwnedBy, Present, Connected;
    forall code ensures AnsweredAs(w, Rejected(w, h, Told(w, h, ConfirmRead), code), h, Refused(code)) {
      RejectedAnswer(w, h, code);
    }
    var found := FindListener(w, w.helpers[h].claim.host, w.helpers[h].claim.port);
    if found.One? {
      SettledAnswer(w, h, found.row);
    }
  }

  /** The exact outcome of an undisturbed confirmation. */
  lemma ConfirmEndsAsAnswered(w: World, h: Identity, token: Claim, n: nat)
    requires HasClaimed(w, h, token) && n >= 7
    ensures var w' := RunFrom(w, [Request(h, ConfirmCommand(token, true))] + Steps(h, CALM, n));
            AnsweredAs(w, w', h, ConfirmAnswer(w, w.helpers[h]))
  {
    hide RunFrom, Steps, FindListener, ConfirmOutcome, AnsweredAs, ConfirmAnswer, Holding;
    TakesTheLock(w, h, token, true, n);
    ConfirmReadStage(w, h, Told(w, h, ConfirmRead), n - 1);
    OutcomeIsAnswered(w, h);
  }

  /** A confirmation without the acknowledgement, for another claim, or before the claim, is refused on the spot. */
  lemma PrematureConfirmIsRefused(w: World, h: Identity, token: Claim, acknowledged: bool)
    requires Running(w, h) && w.helpers[h].pc.Idle?
    requires !w.helpers[h].claimed || !SameToken(token, w.helpers[h].claim) || !acknowledged
    ensures var w' := Apply(w, Request(h, ConfirmCommand(token, acknowledged)));
            && w' == w.(helpers := w'.helpers) && h in w'.helpers && w'.helpers[h].pc.Idle?
            && w'.helpers[h].reply == Refused(if w.helpers[h].claimed && SameToken(token, w.helpers[h].claim) then OwnershipMismatch else InvalidRequest)
  {
  }

  /** A record that cannot be read is nobody's. */
  lemma UnreadableIsSuperseded(w: World, h: Identity, s: Helper, o: Oracle)
    requires Undisturbed(w, h, s) && (s.pc.ConfirmRead? || s.pc.ReleaseRead?) && o.unreadable
    ensures Apply(Holding(w, h, s), Advance(h, o)) == Rejected(w, h, s, Superseded)
  {
    IsRejected(w, h, s, Superseded);
    var w' := Holding(w, h, s);
    assert Decide(w', s, o) == Fail(Superseded);
    hide Decide, Apply;
    DecisionTaken(w', h, o);
  }

  // ---------- the release ----------

  /** A record that cannot be taken away stays, and so does the helper. */
  lemma FailedUnlinkReleasesNothing(w: World, h: Identity, s: Helper, o: Oracle)
    requires Undisturbed(w, h, s) && s.pc.ReleaseUnlink? && !o.write.Written?
    ensures Apply(Holding(w, h, s), Advance(h, o)) == Rejected(w, h, s, IoError)
  {
    IsRejected(w, h, s, IoError);
    hide Decide;
  }

  lemma PrematureReleaseIsRefused(w: World, h: Identity, token: Claim)
    requires Running(w, h) && w.helpers[h].pc.Idle? && (!w.helpers[h].claimed || !SameToken(token, w.helpers[h].claim))
    ensures var w' := Apply(w, Request(h, ReleaseCommand(token)));
            && w' == w.(helpers := w'.helpers) && h in w'.helpers && w'.helpers[h].pc.Idle?
            && w'.helpers[h].reply == Refused(InvalidRequest)
  {
  }

  lemma {:induction false} ExitedSteps(w: World, h: Identity, n: nat)
    requires Running(w, h) && w.helpers[h].pc.Exited?
    ensures RunFrom(w, Steps(h, CALM, n)) == w
    decreases n
  {
    if n > 0 {
      assert Apply(w, Advance(h, CALM)) == w;
      hide Apply;
      OneStep(w, h, CALM, n);
      ExitedSteps(w, h, n - 1);
    }
  }

  lemma ReadsForRelease(w: World, h: Identity, s: Helper)
    requires Undisturbed(w, h, s) && s.pc.ReleaseRead?
    ensures Apply(Holding(w, h, s), Advance(h, CALM))
            == if LeaseStands(w, s.claim) then Holding(w, h, s.(pc := ReleaseUnlink)) else Rejected(w, h, s, Superseded)
  {
    IsRejected(w, h, s, Superseded);
    HoldingOn(w, h, s, ReleaseUnlink);
    var w' := Holding(w, h, s);
    assert Decide(w', s, CALM) == if LeaseStands(w, s.claim) then Go(ReleaseUnlink) else Fail(Superseded);
    hide Decide, Apply;
    DecisionTaken(w', h, CALM);
  }

  lemma RejectedRests(w: World, h: Identity, s: Helper, code: Code, n: nat)
    requires Running(w, h)
    ensures RunFrom(Rejected(w, h, s, code), Steps(h, CALM, n)) == Rejected(w, h, s, code)
  {
    hide RunFrom, Steps;
    IdleSteps(Rejected(w, h, s, code), h, CALM, n);
  }

  lemma Unlinks(w: World, h: Identity, s: Helper)
    requires Undisturbed(w, h, s) && s.pc.ReleaseUnlink? && LeaseStands(w, s.claim)
    ensures Apply(Holding(w, h, s), Advance(h, CALM))
            == With(w, h, s.(pc := Exited, reply := ReleaseOk))
               .(records := w.records - {KeyOf(s.claim)}, released := w.released + {w.records[KeyOf(s.claim)].claim})
  {
    hide Decide;
    var key, done := KeyOf(s.claim), s.(pc := Exited, reply := ReleaseOk);
    assert w.locks[key := h] - {key} == w.locks && w.helpers[h := s][h := done] == w.helpers[h := done];
  }

  lemma UnlinkStage(w: World, h: Identity, s: Helper, n: nat)
    requires Undisturbed(w, h, s) && s.pc.ReleaseUnlink? && LeaseStands(w, s.claim) && n > 0
    ensures RunFrom(Holding(w, h, s), Steps(h, CALM, n))
            == With(w, h, s.(pc := Exited, reply := ReleaseOk))
               .(records := w.records - {KeyOf(s.claim)}, released := w.released + {w.records[KeyOf(s.claim)].claim})
  {
    Unlinks(w, h, s);
    hide Apply, RunFrom, Steps, Holding;
    OneStep(Holding(w, h, s), h, CALM, n);
    ExitedSteps(Apply(Holding(w, h, s), Advance(h, CALM)), h, n - 1);
  }

  /** An undisturbed release takes the record out and ends the helper if the registry still names this
      claim, and leaves a later one alone if it does not. */
  lemma ReleaseEndsTheLease(w: World, h: Identity, token: Claim, n: nat)
    requires HasClaimed(w, h, token) && n >= 3
    ensures var s := w.helpers[h];
            var w' := RunFrom(w, [Request(h, ReleaseCommand(token))] + Steps(h, CALM, n));
            && h in w'.helpers && w'.locks == w.locks && w'.signals == w.signals && SameSystem(w, w')
            && if LeaseStands(w, s.claim)
               then w'.helpers[h].pc.Exited? && w'.helpers[h].reply == ReleaseOk && w'.records == w.records - {KeyOf(s.claim)}
                    && w'.released == w.released + {w.records[KeyOf(s.claim)].claim}
               else w'.helpers[h].pc.Idle? && w'.helpers[h].reply == Refused(Superseded) && w'.records == w.records
                    && w'.released == w.released
  {
    hide Apply, RunFrom, Steps, Holding, LeaseStands, Present, Dead;
    var inside := Told(w, h, ReleaseRead);
    var unlinking := inside.(pc := ReleaseUnlink);
    TakesTheLock(w, h, token, false, n);
    ReadsForRelease(w, h, inside);
    OneStep(Holding(w, h, inside), h, CALM, n - 1);
    if LeaseStands(w, w.helpers[h].claim) {
      UnlinkStage(w, h, unlinking, n - 2);
    } else {
      RejectedRests(w, h, inside, Superseded, n - 2);
    }
  }
}
