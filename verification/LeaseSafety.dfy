/** Safety of the lease protocol over every run: fencing, single ownership, exact signalling. */
module LeaseSafety {
  import opened Recovery
  import opened LeaseWorld

  // ---------- the invariant ----------

  ghost predicate ProcsOk(w: World) {
    forall p :: p in w.procs ==> w.procs[p].id.pid == p && w.procs[p].id in w.born
  }

  predicate StoredAt(w: World, d: string) {
    d in w.files && w.files[d].Stored?
  }

  /** Later reservations of one rule carry larger generations, and every counter is ahead of them. */
  ghost predicate ManagersOk(w: World) {
    && (forall d :: StoredAt(w, d) ==> w.files[d].state.owner in w.owners)
    && (forall d, e :: StoredAt(w, d) && StoredAt(w, e) && w.files[d].state.owner == w.files[e].state.owner ==> d == e)
    && (forall i :: 0 <= i < |w.issued| ==> w.issued[i].owner in w.owners)
    && (forall i, d :: 0 <= i < |w.issued| && StoredAt(w, d) && w.files[d].state.owner == w.issued[i].owner ==>
          w.issued[i].generation <= Generation(w.files[d].state, w.issued[i].rule))
    && (forall i, j :: 0 <= i < j < |w.issued| && KeyOf(w.issued[i]) == KeyOf(w.issued[j]) ==>
          w.issued[i].generation < w.issued[j].generation)
  }

  ghost predicate SlotsOk(w: World) {
    && (forall h :: h in w.helpers ==> w.helpers[h].slot < |w.issued| && w.helpers[h].claim == w.issued[w.helpers[h].slot])
    && (forall g, h :: g in w.helpers && h in w.helpers && w.helpers[g].slot == w.helpers[h].slot ==> g == h)
  }

  /** A lock is held exactly by the helper inside its critical section. */
  ghost predicate LocksOk(w: World) {
    && (forall h :: h in w.helpers && Critical(w.helpers[h].pc) ==>
          KeyOf(w.helpers[h].claim) in w.locks && w.locks[KeyOf(w.helpers[h].claim)] == h)
    && (forall k :: k in w.locks ==>
          w.locks[k] in w.helpers && KeyOf(w.helpers[w.locks[k]].claim) == k && Critical(w.helpers[w.locks[k]].pc))
  }

  predicate WrittenBy(w: World, r: Record) {
    r.helper in w.helpers && w.helpers[r.helper].claim == r.claim && r.session in w.born
  }

  ghost predicate RecordsOk(w: World) {
    forall k :: k in w.records ==>
      KeyOf(w.records[k].claim) == k && WrittenBy(w, w.records[k]) && w.records[k] in w.history
  }

  /** The registered session is still the one in the current record. */
  predicate Stands(w: World, r: Record) {
    var key := KeyOf(r.claim);
    key in w.records && w.records[key].claim == r.claim && w.records[key].session == r.session
  }

  predicate Settled(w: World, r: Record) {
    Stands(w, r) || Dead(w, r.session) || r.claim in w.released
  }

  ghost predicate HistoryOk(w: World) {
    forall r :: r in w.history ==> WrittenBy(w, r) && Settled(w, r)
  }

  ghost predicate ReleasedOk(w: World) {
    forall c :: c in w.released ==> exists h :: h in w.helpers && w.helpers[h].claim == c && w.helpers[h].pc.Exited?
  }

  /** The target was registered earlier for the same rule under a smaller generation. */
  ghost predicate Justified(w: World, s: Signal) {
    && s.target != s.session
    && exists r :: r in w.history && KeyOf(r.claim) == s.key && r.session == s.target && r.claim.generation < s.generation
  }

  ghost predicate SignalsOk(w: World) {
    forall i :: 0 <= i < |w.signals| ==> Justified(w, w.signals[i])
  }

  predicate HasPrior(pc: Pc) {
    Checking(pc) || pc.NewAddress? || pc.NewProbe? || Pinning(pc) || pc.PinSignal? || PriorGone(pc)
  }

  /** Positions at which the recorded session is known to be dead. */
  predicate PriorGone(pc: Pc) {
    || pc.OldGoneProbe? || (pc.NewAddress? && !pc.live) || (pc.NewProbe? && !pc.live)
    || pc.GoneCheck? || pc.GoneProbe? || pc.FinalCheckAfter? || pc.FinalProbeAfter? || pc.WriteAfter?
  }

  /** Positions at which no record stands in the way. */
  predicate NoPrior(pc: Pc) {
    pc.FinalCheckFresh? || pc.FinalProbeFresh? || pc.WriteFresh?
  }

  predicate Claiming(pc: Pc) {
    HasPrior(pc) || pc.ClaimLock? || pc.ClaimRead? || NoPrior(pc)
  }

  predicate BeforeSignal(pc: Pc) {
    Searching(pc) || pc.ClaimLock? || pc.ClaimRead? || Checking(pc) || pc.NewAddress? || pc.NewProbe?
  }

  /** Confirm or release has read the record and found its own token. */
  predicate OwnsRecord(pc: Pc) {
    || pc.ConfirmIdentity? || pc.ConfirmTransport? || pc.ConfirmListener? || pc.ConfirmOwner? || pc.ConfirmWrite?
    || pc.ReleaseUnlink?
  }

  predicate NeedsClaim(pc: Pc) {
    OwnsRecord(pc) || pc.ConfirmLock? || pc.ConfirmRead? || pc.ReleaseLock? || pc.ReleaseRead?
  }

  /** Before the recheck the pinned owner is only known to agree if the old session never left. */
  predicate PinOk(w: World, pc: Pc) {
    && (pc.PinRecheck? ==> (Present(w, pc.prior.session) ==> pc.target == pc.prior.session))
    && (pc.PinSignal? || pc.PinWait? ==> pc.target == pc.prior.session)
  }

  predicate PriorOk(w: World, s: Helper) {
    HasPrior(s.pc) ==>
      && KeyOf(s.claim) in w.records && w.records[KeyOf(s.claim)] == s.pc.prior
      && s.pc.prior.claim.generation < s.claim.generation
      && s.pc.prior.session in w.born
      && (!Checking(s.pc) && s.self.Known? ==> s.pc.prior.session != s.self.session)
      && (PriorGone(s.pc) ==> Dead(w, s.pc.prior.session))
      && PinOk(w, s.pc)
  }

  ghost predicate QuietOk(w: World, h: Identity, s: Helper) {
    && s.mark <= |w.signals|
    && (BeforeSignal(s.pc) || s.reply == Refused(NewAddressOccupied) ==>
          forall i :: s.mark <= i < |w.signals| ==> w.signals[i].sender != h)
  }

  /** What a position says about the helper's own session and claim. */
  predicate SelfOk(w: World, s: Helper) {
    && (s.self.Known? ==> s.self.session in w.born)
    && (Searching(s.pc) ==> !s.claimed && (s.pc.ClaimTransport? ==> s.pc.found in w.born))
    && (Claiming(s.pc) ==> s.self.Known? && !s.claimed)
    && (NeedsClaim(s.pc) ==> s.claimed)
    && (s.claimed ==> s.self.Known?)
    && (s.reply == Refused(NewAddressOccupied) ==> s.pc.Idle? || s.pc.Exited?)
  }

  /** What a position says about the record of the rule. */
  ghost predicate StandingOk(w: World, h: Identity, s: Helper) {
    && (s.claimed && s.self.Known? ==>
          forall k :: k in w.records && w.records[k].helper == h ==> w.records[k].session == s.self.session)
    && (NoPrior(s.pc) ==> KeyOf(s.claim) !in w.records)
    && (OwnsRecord(s.pc) ==> KeyOf(s.claim) in w.records && w.records[KeyOf(s.claim)].helper == h)
  }

  ghost predicate HelperOk(w: World, h: Identity, s: Helper) {
    SelfOk(w, s) && StandingOk(w, h, s) && PriorOk(w, s) && QuietOk(w, h, s)
  }

  ghost predicate HelpersOk(w: World) {
    forall h :: h in w.helpers ==> HelperOk(w, h, w.helpers[h])
  }

  ghost predicate ControlOk(w: World) {
    ProcsOk(w) && ManagersOk(w) && SlotsOk(w) && LocksOk(w)
  }

  ghost predicate LedgerOk(w: World) {
    RecordsOk(w) && HistoryOk(w) && ReleasedOk(w) && SignalsOk(w)
  }

  ghost predicate SystemOk(w: World) {
    ControlOk(w) && LedgerOk(w)
  }

  ghost predicate Inv(w: World) {
    SystemOk(w) && HelpersOk(w)
  }

  // ---------- what other participants may do to one helper ----------

  /** Incarnations never return: absence and death are stable. */
  ghost predicate Aged(w: World, w': World) {
    && w.born <= w'.born
    && (forall id :: id in w.born && !Present(w, id) ==> !Present(w', id))
    && (forall id :: id in w.born && Dead(w, id) ==> Dead(w', id))
  }

  ghost predicate Rely(w: World, w': World, h: Identity)
    requires h in w.helpers
  {
    var s := w.helpers[h];
    var key := KeyOf(s.claim);
    && Aged(w, w')
    && |w.signals| <= |w'.signals|
    && (forall i :: 0 <= i < |w.signals| ==> w'.signals[i] == w.signals[i])
    && (forall i :: |w.signals| <= i < |w'.signals| ==> w'.signals[i].sender != h)
    && (Critical(s.pc) ==> (key in w'.records <==> key in w.records) && (key in w.records ==> w'.records[key] == w.records[key]))
    && (forall k :: k in w'.records && w'.records[k].helper == h ==> k in w.records && w.records[k] == w'.records[k])
  }

  lemma HelperStable(w: World, w': World, h: Identity)
    requires h in w.helpers && HelperOk(w, h, w.helpers[h]) && Rely(w, w', h)
    ensures HelperOk(w', h, w.helpers[h])
  {
    var s := w.helpers[h];
    if BeforeSignal(s.pc) || s.reply == Refused(NewAddressOccupied) {
      forall i | s.mark <= i < |w'.signals| ensures w'.signals[i].sender != h {
        if i < |w.signals| { assert w'.signals[i] == w.signals[i]; }
      }
    }
  }

  lemma HelpersStable(w: World, w': World)
    requires HelpersOk(w) && w'.helpers == w.helpers
    requires forall h :: h in w.helpers ==> Rely(w, w', h)
    ensures HelpersOk(w')
  {
    forall h | h in w'.helpers ensures HelperOk(w', h, w'.helpers[h]) { HelperStable(w, w', h); }
  }

  lemma OthersStable(w: World, w': World, h: Identity, s: Helper)
    requires HelpersOk(w)
    requires w'.helpers == w.helpers[h := s]
    requires forall g :: g in w.helpers && g != h ==> Rely(w, w', g)
    requires HelperOk(w', h, s)
    ensures HelpersOk(w')
  {
    forall g | g in w'.helpers ensures HelperOk(w', g, w'.helpers[g]) {
      if g != h { HelperStable(w, w', g); }
    }
  }

  // ---------- frames ----------

  ghost predicate SameManagers(w: World, w': World) {
    w'.files == w.files && w'.owners == w.owners && w'.issued == w.issued
  }

  ghost predicate SameRegistry(w: World, w': World) {
    w'.records == w.records && w'.history == w.history && w'.released == w.released
  }

  /** No helper is forgotten, changes its claim or comes back after it exited. */
  ghost predicate KeepsHelpers(w: World, w': World) {
    forall h :: h in w.helpers ==>
      && h in w'.helpers && w'.helpers[h].claim == w.helpers[h].claim && w'.helpers[h].slot == w.helpers[h].slot
      && (w.helpers[h].pc.Exited? ==> w'.helpers[h].pc.Exited?)
  }

  lemma ManagersFrame(w: World, w': World)
    requires ManagersOk(w) && SameManagers(w, w')
    ensures ManagersOk(w')
  {
    assert forall d :: StoredAt(w', d) <==> StoredAt(w, d);
  }

  lemma WrittenFrame(w: World, w': World, r: Record)
    requires WrittenBy(w, r) && KeepsHelpers(w, w') && w.born <= w'.born
    ensures WrittenBy(w', r)
  {
  }

  lemma RegistryFrame(w: World, w': World)
    requires RecordsOk(w) && HistoryOk(w)
    requires SameRegistry(w, w') && KeepsHelpers(w, w') && Aged(w, w')
    ensures RecordsOk(w') && HistoryOk(w')
  {
    forall k | k in w'.records
      ensures KeyOf(w'.records[k].claim) == k && WrittenBy(w', w'.records[k]) && w'.records[k] in w'.history
    {
      WrittenFrame(w, w', w.records[k]);
    }
    forall r | r in w'.history ensures WrittenBy(w', r) && Settled(w', r) {
      WrittenFrame(w, w', r);
      assert Settled(w, r);
    }
  }

  lemma ReleasedFrame(w: World, w': World)
    requires ReleasedOk(w) && KeepsHelpers(w, w') && w'.released == w.released
    ensures ReleasedOk(w')
  {
    forall c | c in w'.released
      ensures exists g :: g in w'.helpers && w'.helpers[g].claim == c && w'.helpers[g].pc.Exited?
    {
      var g :| g in w.helpers && w.helpers[g].claim == c && w.helpers[g].pc.Exited?;
      assert g in w'.helpers && w'.helpers[g].claim == c && w'.helpers[g].pc.Exited?;
    }
  }

  lemma SignalsFrame(w: World, w': World)
    requires SignalsOk(w) && w'.signals == w.signals && (forall r :: r in w.history ==> r in w'.history)
    ensures SignalsOk(w')
  {
    forall i | 0 <= i < |w'.signals| ensures Justified(w', w'.signals[i]) {
      var s := w.signals[i];
      assert Justified(w, s);
      var r :| r in w.history && KeyOf(r.claim) == s.key && r.session == s.target && r.claim.generation < s.generation;
      assert r in w'.history;
    }
  }

  // ---------- environment actions ----------

  /** The operating system moved on; nothing that belongs to fwm changed. */
  ghost predicate SystemMove(w: World, w': World) {
    && Aged(w, w') && ProcsOk(w') && SameManagers(w, w') && SameRegistry(w, w')
    && w'.locks == w.locks && w'.helpers == w.helpers && w'.signals == w.signals
  }

  lemma SystemMoveRely(w: World, w': World)
    requires SystemMove(w, w')
    ensures forall g :: g in w.helpers ==> Rely(w, w', g)
  {
  }

  lemma SystemMovePreserves(w: World, w': World)
    requires Inv(w) && SystemMove(w, w')
    ensures Inv(w')
  {
    SystemMoveRely(w, w');
    HelpersStable(w, w');
    ManagersFrame(w, w');
    LedgerFrame(w, w');
  }

  lemma SpawnAges(w: World, id: Identity, parent: nat)
    requires ProcsOk(w)
    ensures SystemMove(w, SpawnProcess(w, id, parent))
  {
    var w' := SpawnProcess(w, id, parent);
    forall e | e in w.born ensures (Present(w', e) ==> Present(w, e)) && (Dead(w, e) ==> Dead(w', e)) {
      if e.pid != id.pid || w' == w { assert Present(w', e) <==> Present(w, e); }
    }
  }

  lemma ReapAges(w: World, pid: nat)
    requires ProcsOk(w)
    ensures SystemMove(w, ReapProcess(w, pid))
  {
  }

  lemma ExitAges(w: World, pid: nat)
    requires ProcsOk(w) && pid in w.procs
    ensures SystemMove(w, Zombie(w, pid))
  {
  }

  // ---------- a step that only moves one helper ----------

  /** Helper `h` moves to `s`, possibly taking or dropping its own lock. */
  ghost predicate Moves(w: World, w': World, h: Identity, s: Helper) {
    && h in w.helpers
    && s.slot == w.helpers[h].slot && s.claim == w.helpers[h].claim
    && (w.helpers[h].pc.Exited? ==> s.pc.Exited?)
    && w'.helpers == w.helpers[h := s]
    && LockMove(w, w', h, s)
    && w'.procs == w.procs && w'.born == w.born && w'.signals == w.signals
    && SameManagers(w, w') && SameRegistry(w, w')
  }

  predicate LockMove(w: World, w': World, h: Identity, s: Helper)
    requires h in w.helpers
  {
    if Critical(w.helpers[h].pc) == Critical(s.pc) then w'.locks == w.locks
    else if Critical(s.pc) then KeyOf(s.claim) !in w.locks && w'.locks == w.locks[KeyOf(s.claim) := h]
    else w'.locks == w.locks - {KeyOf(s.claim)}
  }

  lemma SlotsMove(w: World, w': World, h: Identity, s: Helper)
    requires SlotsOk(w) && h in w.helpers && s.slot == w.helpers[h].slot && s.claim == w.helpers[h].claim
    requires w'.helpers == w.helpers[h := s] && w'.issued == w.issued
    ensures SlotsOk(w')
  {
  }

  lemma LocksMove(w: World, w': World, h: Identity, s: Helper)
    requires LocksOk(w) && h in w.helpers && s.claim == w.helpers[h].claim
    requires w'.helpers == w.helpers[h := s] && LockMove(w, w', h, s)
    ensures LocksOk(w')
  {
  }

  /** Locks follow the helper, claims stay where they are. */
  lemma ControlFrame(w: World, w': World, h: Identity, s: Helper)
    requires ControlOk(w) && h in w.helpers && s.slot == w.helpers[h].slot && s.claim == w.helpers[h].claim
    requires w'.helpers == w.helpers[h := s] && LockMove(w, w', h, s)
    requires w'.procs == w.procs && w'.born == w.born && SameManagers(w, w')
    ensures ControlOk(w')
  {
    ManagersFrame(w, w');
    SlotsMove(w, w', h, s);
    LocksMove(w, w', h, s);
  }

  lemma LedgerFrame(w: World, w': World)
    requires LedgerOk(w) && SameRegistry(w, w') && KeepsHelpers(w, w') && Aged(w, w') && w'.signals == w.signals
    ensures LedgerOk(w')
  {
    RegistryFrame(w, w');
    ReleasedFrame(w, w');
    SignalsFrame(w, w');
  }

  lemma MoveKeepsSystem(w: World, w': World, h: Identity, s: Helper)
    requires SystemOk(w) && Moves(w, w', h, s)
    ensures SystemOk(w')
  {
    ControlFrame(w, w', h, s);
    LedgerFrame(w, w');
  }

  lemma MoveRely(w: World, w': World, h: Identity, s: Helper)
    requires Moves(w, w', h, s)
    ensures forall g :: g in w.helpers ==> Rely(w, w', g)
  {
  }

  lemma HelperFrame(w: World, w': World, h: Identity, s: Helper)
    requires HelperOk(w, h, s)
    requires w'.procs == w.procs && w'.born == w.born && w'.records == w.records && w'.signals == w.signals
    ensures HelperOk(w', h, s)
  {
  }

  lemma MovePreserves(w: World, w': World, h: Identity, s: Helper)
    requires Inv(w) && Moves(w, w', h, s) && HelperOk(w, h, s)
    ensures Inv(w')
  {
    HelperFrame(w, w', h, s);
    MoveKeepsSystem(w, w', h, s);
    MoveRely(w, w', h, s);
    OthersStable(w, w', h, s);
  }

  lemma CrashMoves(w: World, h: Identity)
    requires h in w.helpers && HelperOk(w, h, w.helpers[h])
    ensures Moves(w, Crash(w, h), h, w.helpers[h].(pc := Exited))
    ensures HelperOk(w, h, w.helpers[h].(pc := Exited))
  {
  }

  lemma CrashPreserves(w: World, h: Identity)
    requires Inv(w) && h in w.helpers
    ensures Inv(Crash(w, h))
  {
    CrashMoves(w, h);
    MovePreserves(w, Crash(w, h), h, w.helpers[h].(pc := Exited));
  }

  lemma ExitPreserves(w: World, pid: nat)
    requires Inv(w)
    ensures Inv(ExitProcess(w, pid))
  {
    if pid in w.procs && !w.procs[pid].zombie {
      ExitAges(w, pid);
      SystemMovePreserves(w, Zombie(w, pid));
      if w.procs[pid].id in w.helpers { CrashPreserves(Zombie(w, pid), w.procs[pid].id); }
    }
  }

  // ---------- managers ----------

  lemma OpenKeepsManagers(w: World, d: string, newOwner: string, save: Save)
    requires ManagersOk(w)
    ensures ManagersOk(OpenAt(w, d, newOwner, save))
  {
    var w' := OpenAt(w, d, newOwner, save);
    assert forall e :: e != d ==> (StoredAt(w', e) <==> StoredAt(w, e));
    if StoredAt(w', d) && !StoredAt(w, d) {
      assert w'.files[d].state == State(newOwner, map[]);
      assert newOwner !in w.owners;
    }
  }

  lemma TamperKeepsManagers(w: World, d: string, remove: bool)
    requires ManagersOk(w)
    ensures ManagersOk(TamperAt(w, d, remove))
  {
    var w' := TamperAt(w, d, remove);
    assert forall e :: StoredAt(w', e) ==> e != d && StoredAt(w, e);
  }

  /** The counters only grow, and only in the directory that was asked. */
  ghost predicate CountersGrow(w: World, w': World, d: string) {
    && w'.owners == w.owners
    && (forall e :: e != d ==> (StoredAt(w', e) <==> StoredAt(w, e)) && (StoredAt(w, e) ==> w'.files[e] == w.files[e]))
    && (StoredAt(w', d) ==> StoredAt(w, d) && w'.files[d].state.owner == w.files[d].state.owner)
    && (StoredAt(w', d) ==> forall r :: Generation(w.files[d].state, r) <= Generation(w'.files[d].state, r))
  }

  /** A claim handed out carries the counter's new value. */
  ghost predicate HandsOut(w: World, w': World, d: string) {
    w'.issued == w.issued ||
    (StoredAt(w, d) && StoredAt(w', d) && |w'.issued| == |w.issued| + 1 && w.issued == w'.issued[..|w.issued|]
     && var c := w'.issued[|w.issued|];
        c.owner == w.files[d].state.owner
        && Generation(w.files[d].state, c.rule) < c.generation <= Generation(w'.files[d].state, c.rule))
  }

  lemma ReserveGrows(w: World, d: string, owner: string, rule: string, session: string, host: nat, port: nat,
                     save: Save)
    ensures var w' := ReserveAt(w, d, owner, rule, session, host, port, save); CountersGrow(w, w', d) && HandsOut(w, w', d)
  {
  }

  lemma GrowthKeepsManagers(w: World, w': World, d: string)
    requires ManagersOk(w) && CountersGrow(w, w', d) && HandsOut(w, w', d)
    ensures ManagersOk(w')
  {
    assert forall i :: 0 <= i < |w.issued| ==> w'.issued[i] == w.issued[i];
  }

  lemma ReserveKeepsManagers(w: World, d: string, owner: string, rule: string, session: string, host: nat,
                             port: nat, save: Save)
    requires ManagersOk(w)
    ensures ManagersOk(ReserveAt(w, d, owner, rule, session, host, port, save))
  {
    ReserveGrows(w, d, owner, rule, session, host, port, save);
    GrowthKeepsManagers(w, ReserveAt(w, d, owner, rule, session, host, port, save), d);
  }

  /** Managers act on their own files only. */
  ghost predicate ManagerMove(w: World, w': World) {
    && w'.procs == w.procs && w'.born == w.born && w'.locks == w.locks && w'.helpers == w.helpers
    && w'.signals == w.signals && SameRegistry(w, w') && w.issued <= w'.issued
  }

  lemma ManagerMoveRely(w: World, w': World)
    requires ManagerMove(w, w')
    ensures forall g :: g in w.helpers ==> Rely(w, w', g)
  {
  }

  lemma ManagerMovePreserves(w: World, w': World)
    requires Inv(w) && ManagerMove(w, w') && ManagersOk(w')
    ensures Inv(w')
  {
    ManagerMoveRely(w, w');
    HelpersStable(w, w');
    LedgerFrame(w, w');
  }

  lemma SlotsStart(w: World, w': World, h: Identity, s: Helper)
    requires SlotsOk(w) && h !in w.helpers && s.slot < |w.issued| && s.claim == w.issued[s.slot]
    requires forall g :: g in w.helpers ==> w.helpers[g].slot != s.slot
    requires w'.helpers == w.helpers[h := s] && w'.issued == w.issued
    ensures SlotsOk(w')
  {
  }

  lemma LocksStart(w: World, w': World, h: Identity, s: Helper)
    requires LocksOk(w) && h !in w.helpers && !Critical(s.pc)
    requires w'.helpers == w.helpers[h := s] && w'.locks == w.locks
    ensures LocksOk(w')
  {
  }

  lemma NewHelperOk(w: World, h: Identity, s: Helper)
    requires s.pc.Idle? && s.self.Unknown? && !s.claimed && s.reply.Pending? && s.mark == 0
    ensures HelperOk(w, h, s)
  {
  }

  ghost predicate Starts(w: World, w': World, h: Identity, s: Helper) {
    && h !in w.helpers && s.pc.Idle? && s.slot < |w.issued| && s.claim == w.issued[s.slot]
    && (forall g :: g in w.helpers ==> w.helpers[g].slot != s.slot)
    && w'.helpers == w.helpers[h := s] && w'.locks == w.locks
    && w'.procs == w.procs && w'.born == w.born && w'.signals == w.signals
    && SameManagers(w, w') && SameRegistry(w, w')
  }

  lemma StartRely(w: World, w': World, h: Identity, s: Helper)
    requires Starts(w, w', h, s)
    ensures forall g :: g in w.helpers ==> Rely(w, w', g)
  {
  }

  lemma StartPreserves(w: World, w': World, h: Identity, s: Helper)
    requires Inv(w) && Starts(w, w', h, s) && HelperOk(w', h, s)
    ensures Inv(w')
  {
    hide HelperOk, SlotsOk, LocksOk, ManagersOk, LedgerOk, Rely;
    StartRely(w, w', h, s);
    OthersStable(w, w', h, s);
    ManagersFrame(w, w');
    SlotsStart(w, w', h, s);
    LocksStart(w, w', h, s);
    LedgerFrame(w, w');
  }

  // ---------- steps of one helper ----------

  lemma GotoMoves(w: World, h: Identity, pc: Pc)
    requires h in w.helpers && Critical(w.helpers[h].pc) && Critical(pc)
    ensures Moves(w, Goto(w, h, pc), h, w.helpers[h].(pc := pc))
  {
  }

  lemma GotoPreserves(w: World, h: Identity, pc: Pc)
    requires Inv(w) && h in w.helpers && Critical(w.helpers[h].pc) && Critical(pc)
    requires HelperOk(w, h, w.helpers[h].(pc := pc))
    ensures Inv(Goto(w, h, pc))
  {
    GotoMoves(w, h, pc);
    MovePreserves(w, Goto(w, h, pc), h, w.helpers[h].(pc := pc));
  }

  lemma RefuseIsOk(w: World, h: Identity, s: Helper, code: Code)
    requires HelperOk(w, h, s) && (code.NewAddressOccupied? ==> BeforeSignal(s.pc))
    ensures HelperOk(w, h, s.(pc := Idle, reply := Refused(code)))
  {
  }

  lemma RefuseMoves(w: World, h: Identity, code: Code)
    requires h in w.helpers && Critical(w.helpers[h].pc)
    ensures Moves(w, Refuse(w, h, code), h, w.helpers[h].(pc := Idle, reply := Refused(code)))
  {
  }

  lemma RefusePreserves(w: World, h: Identity, code: Code)
    requires Inv(w) && h in w.helpers && Critical(w.helpers[h].pc)
    requires code.NewAddressOccupied? ==> BeforeSignal(w.helpers[h].pc)
    ensures Inv(Refuse(w, h, code))
  {
    RefuseIsOk(w, h, w.helpers[h], code);
    RefuseMoves(w, h, code);
    MovePreserves(w, Refuse(w, h, code), h, w.helpers[h].(pc := Idle, reply := Refused(code)));
  }

  lemma LockMoves(w: World, h: Identity, pc: Pc, o: Oracle)
    requires h in w.helpers && !Critical(w.helpers[h].pc) && !w.helpers[h].pc.Exited? && Critical(pc)
    ensures var w', s := Lock(w, h, pc, o), w.helpers[h];
            w' == w || Moves(w, w', h, s.(pc := Idle, reply := Refused(PermissionDenied))) || Moves(w, w', h, s.(pc := pc))
  {
  }

  lemma LockPreserves(w: World, h: Identity, pc: Pc, o: Oracle)
    requires Inv(w) && h in w.helpers && !Critical(w.helpers[h].pc) && !w.helpers[h].pc.Exited? && Critical(pc)
    requires HelperOk(w, h, w.helpers[h].(pc := pc))
    ensures Inv(Lock(w, h, pc, o))
  {
    var s, w' := w.helpers[h], Lock(w, h, pc, o);
    LockMoves(w, h, pc, o);
    if Moves(w, w', h, s.(pc := pc)) {
      MovePreserves(w, w', h, s.(pc := pc));
    } else if w' != w {
      RefuseIsOk(w, h, s, PermissionDenied);
      MovePreserves(w, w', h, s.(pc := Idle, reply := Refused(PermissionDenied)));
    }
  }

  lemma AcceptIsOk(w: World, h: Identity, command: Command)
    requires h in w.helpers && w.helpers[h].pc.Idle? && HelperOk(w, h, w.helpers[h])
    ensures HelperOk(w, h, Accept(w, h, command))
  {
  }

  /** A request only rewrites the helper's own fields. */
  lemma ReceivePreserves(w: World, h: Identity, command: Command)
    requires Inv(w) && h in w.helpers && w.helpers[h].pc.Idle?
    ensures Inv(Receive(w, h, command))
  {
    assert HelperOk(w, h, w.helpers[h]);
    hide Inv, HelperOk;
    AcceptIsOk(w, h, command);
    MovePreserves(w, Receive(w, h, command), h, Accept(w, h, command));
  }

  /** What the search found is a process the system has seen. */
  lemma SearchIsOk(w: World, h: Identity)
    requires ProcsOk(w) && h in w.helpers && HelperOk(w, h, w.helpers[h]) && Searching(w.helpers[h].pc)
    ensures HelperOk(w, h, Search(w, h))
  {
    var s := w.helpers[h];
    FoundIsBorn(w, h, s.transport);
    RefuseIsOk(w, h, s, OwnershipMismatch);
    hide OwnSession, ProcsOk, HelperOk;
    if s.pc.ClaimSession? && OwnSession(w, h, s.transport).Ancestor? {
      SearchingOnIsOk(w, h, s, s.(pc := ClaimTransport(OwnSession(w, h, s.transport).id)));
    } else if s.pc.ClaimTransport? && Connected(w, s.transport) {
      SearchingOnIsOk(w, h, s, s.(self := Known(s.pc.found, w.connections[s.transport]), pc := ClaimLock));
    }
  }

  lemma SearchingOnIsOk(w: World, h: Identity, s: Helper, s': Helper)
    requires HelperOk(w, h, s) && Searching(s.pc)
    requires if s'.pc.ClaimTransport? then s' == s.(pc := s'.pc) && s'.pc.found in w.born
             else s'.pc.ClaimLock? && s'.self.Known? && s'.self.session in w.born && s' == s.(self := s'.self, pc := ClaimLock)
    ensures HelperOk(w, h, s')
  {
  }

  lemma FoundIsBorn(w: World, h: Identity, t: Transport)
    requires ProcsOk(w)
    ensures var found := OwnSession(w, h, t); found.Ancestor? ==> found.id in w.born
  {
  }

  lemma SearchPreserves(w: World, h: Identity)
    requires Inv(w) && h in w.helpers && Searching(w.helpers[h].pc)
    ensures Inv(w.(helpers := w.helpers[h := Search(w, h)]))
  {
    assert ProcsOk(w) && HelperOk(w, h, w.helpers[h]);
    SearchIsOk(w, h);
    hide Inv, HelperOk, ProcsOk, OwnSession;
    MovePreserves(w, w.(helpers := w.helpers[h := Search(w, h)]), h, Search(w, h));
  }

  /** A decision is sound when every state it can lead to satisfies the helper's invariant. */
  ghost predicate Sound(w: World, h: Identity, s: Helper, move: Move) {
    match move
    case Stay => true
    case Fail(code) => code.NewAddressOccupied? ==> BeforeSignal(s.pc)
    case Go(pc) => Critical(pc) && HelperOk(w, h, s.(pc := pc))
  }

  lemma PerformPreserves(w: World, h: Identity, move: Move)
    requires Inv(w) && h in w.helpers && Critical(w.helpers[h].pc) && Sound(w, h, w.helpers[h], move)
    ensures Inv(Perform(w, h, move))
  {
    match move {
      case Stay =>
      case Fail(code) => RefusePreserves(w, h, code);
      case Go(pc) => GotoPreserves(w, h, pc);
    }
  }

  lemma ReadIsSound(w: World, h: Identity, s: Helper, o: Oracle)
    requires HelperOk(w, h, s) && RecordsOk(w) && s.pc.ClaimRead?
    ensures Sound(w, h, s, DecideRead(w, s.claim, o))
  {
    if KeyOf(s.claim) in w.records { assert WrittenBy(w, w.records[KeyOf(s.claim)]); }
  }

  lemma OldSessionIsSound(w: World, h: Identity, s: Helper)
    requires HelperOk(w, h, s) && CheckingSession(s.pc)
    ensures Sound(w, h, s, DecideOldSession(w, s.pc))
  {
  }

  lemma OldListenerIsSound(w: World, h: Identity, s: Helper, o: Oracle)
    requires HelperOk(w, h, s) && Checking(s.pc) && !CheckingSession(s.pc)
    ensures s.self.Known? && Sound(w, h, s, DecideOldListener(w, s, o))
  {
    hide FindListener, BindRefused;
  }

  lemma AddressIsSound(w: World, h: Identity, s: Helper, o: Oracle)
    requires HelperOk(w, h, s)
    requires s.pc.NewAddress? || s.pc.NewProbe? || s.pc.GoneCheck? || s.pc.GoneProbe? || s.pc.FinalCheckFresh?
             || s.pc.FinalProbeFresh? || s.pc.FinalCheckAfter? || s.pc.FinalProbeAfter?
    ensures Sound(w, h, s, DecideAddress(w, s.claim, s.pc, o))
  {
    var move := DecideAddress(w, s.claim, s.pc, o);
    AddressMoves(w, s, o);
    if move.Go? {
      SteppedIsOk(w, h, s, move.pc);
    }
  }

  /** Both looks at an address lead on without a new claim about anything. */
  predicate StepsOn(pc: Pc, next: Pc) {
    && (NoPrior(pc) <==> NoPrior(next)) && (HasPrior(pc) <==> HasPrior(next)) && (HasPrior(pc) ==> next.prior == pc.prior)
    && (NoPrior(next) || HasPrior(next)) && !Checking(pc) && !Checking(next)
    && (PriorGone(next) ==> PriorGone(pc)) && (BeforeSignal(next) ==> BeforeSignal(pc))
    && !next.PinRecheck? && !next.PinSignal? && !next.PinWait?
  }

  lemma AddressMoves(w: World, s: Helper, o: Oracle)
    requires s.pc.NewAddress? || s.pc.NewProbe? || s.pc.GoneCheck? || s.pc.GoneProbe? || s.pc.FinalCheckFresh?
             || s.pc.FinalProbeFresh? || s.pc.FinalCheckAfter? || s.pc.FinalProbeAfter?
    ensures var move := DecideAddress(w, s.claim, s.pc, o);
            match move
            case Stay => false
            case Fail(code) => code.NewAddressOccupied? ==> BeforeSignal(s.pc)
            case Go(next) => StepsOn(s.pc, next)
  {
    hide FindListener, BindRefused;
  }

  lemma SteppedIsOk(w: World, h: Identity, s: Helper, next: Pc)
    requires HelperOk(w, h, s) && StepsOn(s.pc, next)
    ensures Critical(next) && HelperOk(w, h, s.(pc := next))
  {
  }

  /** The recheck turns "whoever has this pid" into "the recorded session": the incarnation seen
      through the pinned directory was there all along, so the pid never meant anything else. */
  lemma PinIsSound(w: World, h: Identity, s: Helper, o: Oracle)
    requires HelperOk(w, h, s) && Pinning(s.pc)
    ensures Sound(w, h, s, DecidePin(w, s.pc, o))
  {
  }

  /** A matching token names the helper that wrote the record: claims are never shared. */
  lemma TokenNamesWriter(w: World, h: Identity)
    requires SlotsOk(w) && ManagersOk(w) && RecordsOk(w) && h in w.helpers && HoldsLease(w, w.helpers[h].claim)
    ensures w.records[KeyOf(w.helpers[h].claim)].helper == h
  {
    var r := w.records[KeyOf(w.helpers[h].claim)];
    assert WrittenBy(w, r);
    var i, j := w.helpers[r.helper].slot, w.helpers[h].slot;
    assert KeyOf(w.issued[i]) == KeyOf(w.issued[j]) && w.issued[i].generation == w.issued[j].generation;
    assert i == j;
  }

  lemma TokenIsSound(w: World, h: Identity, s: Helper, o: Oracle)
    requires HelperOk(w, h, s) && (s.pc.ConfirmRead? || s.pc.ReleaseRead?)
    requires HoldsLease(w, s.claim) ==> w.records[KeyOf(s.claim)].helper == h
    ensures Sound(w, h, s, Decide(w, s, o))
  {
    hide DecideClaim;
    var move := Decide(w, s, o);
    assert move.Go? ==> HoldsLease(w, s.claim) && OwnsRecord(move.pc);
    if move.Go? {
      TokenHeldOk(w, h, s, move.pc);
    }
  }

  lemma TokenHeldOk(w: World, h: Identity, s: Helper, next: Pc)
    requires HelperOk(w, h, s) && (s.pc.ConfirmRead? || s.pc.ReleaseRead?)
    requires next.ConfirmIdentity? || next.ReleaseUnlink?
    requires KeyOf(s.claim) in w.records && w.records[KeyOf(s.claim)].helper == h
    ensures Critical(next) && HelperOk(w, h, s.(pc := next))
  {
  }

  lemma ConfirmIsSound(w: World, h: Identity, s: Helper, o: Oracle)
    requires HelperOk(w, h, s) && s.self.Known?
    requires Confirming(s.pc) && !s.pc.ConfirmRead?
    ensures Sound(w, h, s, DecideConfirm(w, s, o))
  {
  }

  lemma DecisionIsSound(w: World, h: Identity, o: Oracle)
    requires Inv(w) && h in w.helpers && Deciding(w.helpers[h].pc)
    ensures Sound(w, h, w.helpers[h], Decide(w, w.helpers[h], o))
  {
    var s := w.helpers[h];
    assert HelperOk(w, h, s);
    assert SlotsOk(w) && ManagersOk(w) && RecordsOk(w);
    hide Sound, HelperOk, Inv, SlotsOk, ManagersOk, RecordsOk, HoldsLease;
    hide DecideRead, DecideOldSession, DecideOldListener, DecidePin, DecideAddress, DecideConfirm;
    if s.pc.ConfirmRead? || s.pc.ReleaseRead? {
      if HoldsLease(w, s.claim) { TokenNamesWriter(w, h); }
      TokenIsSound(w, h, s, o);
    } else if Confirming(s.pc) {
      ConfirmIsSound(w, h, s, o);
    } else if s.pc.ClaimRead? {
      ReadIsSound(w, h, s, o);
    } else if CheckingSession(s.pc) {
      OldSessionIsSound(w, h, s);
    } else if Checking(s.pc) {
      OldListenerIsSound(w, h, s, o);
    } else if Pinning(s.pc) {
      PinIsSound(w, h, s, o);
    } else {
      AddressIsSound(w, h, s, o);
    }
  }

  // ---------- signals ----------

  ghost predicate Signals(w: World, w': World, h: Identity, s: Helper, signal: Signal) {
    && h in w.helpers && s.slot == w.helpers[h].slot && s.claim == w.helpers[h].claim && !w.helpers[h].pc.Exited?
    && Critical(w.helpers[h].pc) && Critical(s.pc)
    && signal.sender == h && w'.signals == w.signals + [signal]
    && w'.helpers == w.helpers[h := s] && w'.locks == w.locks
    && w'.procs == w.procs && w'.born == w.born
    && SameManagers(w, w') && SameRegistry(w, w')
  }

  lemma SignalRely(w: World, w': World, h: Identity, s: Helper, signal: Signal)
    requires Signals(w, w', h, s, signal)
    ensures forall g :: g in w.helpers && g != h ==> Rely(w, w', g)
  {
  }

  lemma SignalsExtend(w: World, w': World, signal: Signal)
    requires SignalsOk(w) && Justified(w, signal) && w'.signals == w.signals + [signal] && w'.history == w.history
    ensures SignalsOk(w')
  {
    forall i | 0 <= i < |w'.signals| ensures Justified(w', w'.signals[i]) {
      var s := w'.signals[i];
      assert i < |w.signals| ==> s == w.signals[i];
      assert Justified(w, s);
      var r :| r in w.history && KeyOf(r.claim) == s.key && r.session == s.target && r.claim.generation < s.generation;
      assert r in w'.history;
    }
  }

  lemma SignalKeepsLedger(w: World, w': World, h: Identity, s: Helper, signal: Signal)
    requires LedgerOk(w) && Signals(w, w', h, s, signal) && Justified(w, signal)
    ensures LedgerOk(w')
  {
    RegistryFrame(w, w');
    ReleasedFrame(w, w');
    SignalsExtend(w, w', signal);
  }

  lemma SignalPreserves(w: World, w': World, h: Identity, s: Helper, signal: Signal)
    requires Inv(w) && Signals(w, w', h, s, signal) && Justified(w, signal) && HelperOk(w', h, s)
    ensures Inv(w')
  {
    ControlFrame(w, w', h, s);
    SignalKeepsLedger(w, w', h, s, signal);
    SignalRely(w, w', h, s, signal);
    OthersStable(w, w', h, s);
  }

  lemma SendSignalMoves(w: World, h: Identity, o: Oracle)
    requires h in w.helpers && w.helpers[h].pc.PinSignal? && w.helpers[h].self.Known?
    ensures var s, w' := w.helpers[h], SendSignal(w, h, o);
            var next := PinWait(s.pc.prior, s.pc.target, s.pc.kill);
            if o.signalFails then w' == Refuse(w, h, PermissionDenied)
            else if !Present(w, s.pc.target) then w' == Goto(w, h, next)
            else Signals(w, w', h, s.(pc := next), SignalOf(h, s))
  {
  }

  function SignalOf(h: Identity, s: Helper): Signal
    requires s.pc.PinSignal? && s.self.Known?
  {
    Signal(h, s.self.session, KeyOf(s.claim), s.claim.generation, s.pc.target, s.pc.kill)
  }

  lemma SignallerOk(w: World, h: Identity)
    requires Inv(w) && h in w.helpers && w.helpers[h].pc.PinSignal?
    ensures HelperOk(w, h, w.helpers[h]) && w.helpers[h].self.Known?
  {
  }

  lemma SendSignalPreserves(w: World, h: Identity, o: Oracle)
    requires Inv(w) && h in w.helpers && w.helpers[h].pc.PinSignal?
    ensures Inv(SendSignal(w, h, o))
  {
    hide Inv, HelperOk, Signals;
    SignallerOk(w, h);
    SendSignalMoves(w, h, o);
    hide SendSignal, Refuse, Goto;
    var s := w.helpers[h];
    if o.signalFails {
      RefusePreserves(w, h, PermissionDenied);
    } else if !Present(w, s.pc.target) {
      var next := PinWait(s.pc.prior, s.pc.target, s.pc.kill);
      WaitHelperOk(w, w, h, s, next);
      GotoPreserves(w, h, next);
    } else {
      SentPreserves(w, SendSignal(w, h, o), h);
    }
  }

  lemma SentPreserves(w: World, w': World, h: Identity)
    requires Inv(w) && h in w.helpers && w.helpers[h].pc.PinSignal? && w.helpers[h].self.Known?
    requires var s := w.helpers[h]; Signals(w, w', h, s.(pc := PinWait(s.pc.prior, s.pc.target, s.pc.kill)), SignalOf(h, s))
    ensures Inv(w')
  {
    var s := w.helpers[h];
    SignallerOk(w, h);
    assert RecordsOk(w);
    hide Inv, RecordsOk, HelperOk, Justified;
    WaitHelperOk(w, w', h, s, PinWait(s.pc.prior, s.pc.target, s.pc.kill));
    PriorJustifies(w, h, SignalOf(h, s));
    SignalPreserves(w, w', h, s.(pc := PinWait(s.pc.prior, s.pc.target, s.pc.kill)), SignalOf(h, s));
  }

  lemma PriorJustifies(w: World, h: Identity, signal: Signal)
    requires RecordsOk(w) && h in w.helpers && HelperOk(w, h, w.helpers[h]) && w.helpers[h].pc.PinSignal?
    requires w.helpers[h].self.Known? && signal == SignalOf(h, w.helpers[h])
    ensures Justified(w, signal)
  {
    var r := w.helpers[h].pc.prior;
    assert r in w.history && KeyOf(r.claim) == signal.key;
  }

  lemma WaitHelperOk(w: World, w': World, h: Identity, s: Helper, next: Pc)
    requires HelperOk(w, h, s) && s.pc.PinSignal? && next == PinWait(s.pc.prior, s.pc.target, s.pc.kill)
    requires w'.procs == w.procs && w'.born == w.born && w'.records == w.records && |w.signals| <= |w'.signals|
    ensures HelperOk(w', h, s.(pc := next))
  {
  }

  // ---------- writing the record ----------

  ghost predicate Writes(w: World, w': World, h: Identity, s: Helper, r: Record) {
    && h in w.helpers && s.slot == w.helpers[h].slot && s.claim == w.helpers[h].claim
    && Critical(w.helpers[h].pc) && s.pc.Idle? && LockMove(w, w', h, s)
    && w'.helpers == w.helpers[h := s]
    && w'.records == w.records[KeyOf(s.claim) := r] && w'.history == w.history + [r] && w'.released == w.released
    && r.claim == s.claim && r.helper == h && r.session in w.born
    && w'.procs == w.procs && w'.born == w.born && w'.signals == w.signals && SameManagers(w, w')
  }

  /** What stood before is the same registration, or its session is already dead. */
  predicate Replaceable(w: World, r: Record) {
    var key := KeyOf(r.claim);
    key in w.records ==>
      (w.records[key].claim == r.claim && w.records[key].session == r.session) || Dead(w, w.records[key].session)
  }

  lemma WriteKeepsRegistry(w: World, w': World, h: Identity, s: Helper, r: Record)
    requires RecordsOk(w) && HistoryOk(w) && Writes(w, w', h, s, r) && Replaceable(w, r)
    ensures RecordsOk(w') && HistoryOk(w')
  {
    assert KeepsHelpers(w, w');
    forall k | k in w'.records
      ensures KeyOf(w'.records[k].claim) == k && WrittenBy(w', w'.records[k]) && w'.records[k] in w'.history
    {
      if k != KeyOf(s.claim) { WrittenFrame(w, w', w.records[k]); }
    }
    forall e | e in w'.history ensures WrittenBy(w', e) && Settled(w', e) {
      if e != r {
        assert e in w.history;
        WrittenFrame(w, w', e);
        assert Settled(w, e);
      }
    }
  }

  lemma WriteKeepsLedger(w: World, w': World, h: Identity, s: Helper, r: Record)
    requires LedgerOk(w) && Writes(w, w', h, s, r) && Replaceable(w, r)
    ensures LedgerOk(w')
  {
    WriteKeepsRegistry(w, w', h, s, r);
    ReleasedFrame(w, w');
    SignalsFrame(w, w');
  }

  /** Only the lock holder writes, so no other helper of this rule relies on the old contents. */
  lemma WriteRely(w: World, w': World, h: Identity, s: Helper, r: Record)
    requires LocksOk(w) && Writes(w, w', h, s, r)
    ensures forall g :: g in w.helpers && g != h ==> Rely(w, w', g)
  {
  }

  lemma WriterOk(w: World, w': World, h: Identity, s: Helper, r: Record)
    requires RecordsOk(w) && Writes(w, w', h, s, r) && HelperOk(w, h, w.helpers[h])
    requires s.self == w.helpers[h].self && s.mark == w.helpers[h].mark && s.reply != Refused(NewAddressOccupied)
    requires s.self.Known? && r.session == s.self.session
    ensures HelperOk(w', h, s)
  {
    forall k | k in w'.records && w'.records[k].helper == h ensures w'.records[k].session == s.self.session {
      assert k in w.records ==> KeyOf(w.records[k].claim) == k && WrittenBy(w, w.records[k]);
    }
  }

  lemma WritePreserves(w: World, w': World, h: Identity, s: Helper, r: Record)
    requires Inv(w) && Writes(w, w', h, s, r) && Replaceable(w, r)
    requires s.self == w.helpers[h].self && s.mark == w.helpers[h].mark && s.reply != Refused(NewAddressOccupied)
    requires s.self.Known? && r.session == s.self.session
    ensures Inv(w')
  {
    ControlFrame(w, w', h, s);
    WriteKeepsLedger(w, w', h, s, r);
    WriteRely(w, w', h, s, r);
    WriterOk(w, w', h, s, r);
    OthersStable(w, w', h, s);
  }

  lemma CommitFails(w: World, h: Identity, r: Record, o: Oracle, ok: Reply)
    requires h in w.helpers && Critical(w.helpers[h].pc) && o.write.NotWritten?
    ensures Moves(w, Commit(w, h, r, o, ok), h, CommitHelper(w.helpers[h], o, ok))
  {
  }

  lemma CommitWrites(w: World, h: Identity, r: Record, o: Oracle, ok: Reply)
    requires h in w.helpers && Critical(w.helpers[h].pc) && !ok.ReleaseOk? && !o.write.NotWritten?
    requires r.claim == w.helpers[h].claim && r.helper == h && r.session in w.born
    ensures Writes(w, Commit(w, h, r, o, ok), h, CommitHelper(w.helpers[h], o, ok), r)
  {
  }

  lemma CommitPreserves(w: World, h: Identity, phase: Phase, o: Oracle, ok: Reply)
    requires Inv(w) && h in w.helpers && w.helpers[h].self.Known? && (ok.ClaimOk? || ok.ConfirmOk?)
    requires var pc := w.helpers[h].pc; if ok.ClaimOk? then pc.WriteFresh? || pc.WriteAfter? else pc.ConfirmWrite?
    ensures Inv(Commit(w, h, MakeRecord(w.helpers[h], h, phase), o, ok))
  {
    var s := w.helpers[h];
    var r := MakeRecord(s, h, phase);
    assert HelperOk(w, h, s);
    if o.write.NotWritten? {
      CommitFails(w, h, r, o, ok);
      CommitFailedOk(w, h, s, o, ok);
      MovePreserves(w, Commit(w, h, r, o, ok), h, CommitHelper(s, o, ok));
    } else {
      CommitWrites(w, h, r, o, ok);
      WriterMayReplace(w, h, r);
      WritePreserves(w, Commit(w, h, r, o, ok), h, CommitHelper(s, o, ok), r);
    }
  }

  lemma CommitFailedOk(w: World, h: Identity, s: Helper, o: Oracle, ok: Reply)
    requires HelperOk(w, h, s) && o.write.NotWritten?
    requires if ok.ClaimOk? then s.pc.WriteFresh? || s.pc.WriteAfter? else s.pc.ConfirmWrite?
    ensures HelperOk(w, h, CommitHelper(s, o, ok))
  {
  }

  /** A claim writes over nothing or over a dead session; a confirm rewrites its own registration. */
  lemma WriterMayReplace(w: World, h: Identity, r: Record)
    requires RecordsOk(w) && h in w.helpers && HelperOk(w, h, w.helpers[h]) && w.helpers[h].self.Known?
    requires var pc := w.helpers[h].pc; pc.WriteFresh? || pc.WriteAfter? || pc.ConfirmWrite?
    requires r.claim == w.helpers[h].claim && r.session == w.helpers[h].self.session
    ensures Replaceable(w, r)
  {
    var key := KeyOf(r.claim);
    if key in w.records { assert WrittenBy(w, w.records[key]); }
  }

  // ---------- releasing ----------

  ghost predicate Unlinks(w: World, w': World, h: Identity, s: Helper) {
    && h in w.helpers && s == w.helpers[h].(pc := Exited, reply := ReleaseOk) && Critical(w.helpers[h].pc)
    && LockMove(w, w', h, s) && w'.helpers == w.helpers[h := s]
    && KeyOf(s.claim) in w.records && w.records[KeyOf(s.claim)].helper == h
    && w'.records == w.records - {KeyOf(s.claim)} && w'.history == w.history
    && w'.released == w.released + {w.records[KeyOf(s.claim)].claim}
    && w'.procs == w.procs && w'.born == w.born && w'.signals == w.signals && SameManagers(w, w')
  }

  lemma UnlinkKeepsRegistry(w: World, w': World, h: Identity, s: Helper)
    requires RecordsOk(w) && HistoryOk(w) && ReleasedOk(w) && Unlinks(w, w', h, s)
    ensures RecordsOk(w') && HistoryOk(w') && ReleasedOk(w')
  {
    assert KeepsHelpers(w, w');
    forall k | k in w'.records
      ensures KeyOf(w'.records[k].claim) == k && WrittenBy(w', w'.records[k]) && w'.records[k] in w'.history
    {
      WrittenFrame(w, w', w.records[k]);
    }
    forall e | e in w'.history ensures WrittenBy(w', e) && Settled(w', e) {
      WrittenFrame(w, w', e);
      assert Settled(w, e);
    }
    forall c | c in w'.released
      ensures exists g :: g in w'.helpers && w'.helpers[g].claim == c && w'.helpers[g].pc.Exited?
    {
      if c in w.released {
        var g :| g in w.helpers && w.helpers[g].claim == c && w.helpers[g].pc.Exited?;
        assert g in w'.helpers && w'.helpers[g].claim == c && w'.helpers[g].pc.Exited?;
      } else {
        assert WrittenBy(w, w.records[KeyOf(s.claim)]);
        assert w'.helpers[h].claim == c && w'.helpers[h].pc.Exited?;
      }
    }
  }

  lemma UnlinkKeepsLedger(w: World, w': World, h: Identity, s: Helper)
    requires LedgerOk(w) && Unlinks(w, w', h, s)
    ensures LedgerOk(w')
  {
    UnlinkKeepsRegistry(w, w', h, s);
    SignalsFrame(w, w');
  }

  lemma UnlinkRely(w: World, w': World, h: Identity, s: Helper)
    requires LocksOk(w) && Unlinks(w, w', h, s)
    ensures forall g :: g in w.helpers && g != h ==> Rely(w, w', g)
  {
  }

  lemma UnlinkerOk(w: World, w': World, h: Identity, s: Helper)
    requires Unlinks(w, w', h, s) && HelperOk(w, h, w.helpers[h])
    ensures HelperOk(w', h, s)
  {
  }

  lemma UnlinkMoves(w: World, h: Identity, o: Oracle)
    requires h in w.helpers && Critical(w.helpers[h].pc)
    requires KeyOf(w.helpers[h].claim) in w.records && w.records[KeyOf(w.helpers[h].claim)].helper == h
    ensures var w' := Unlink(w, h, o);
            w' == Refuse(w, h, IoError) || Unlinks(w, w', h, w.helpers[h].(pc := Exited, reply := ReleaseOk))
  {
  }

  lemma UnlinkPreserves(w: World, h: Identity, o: Oracle)
    requires Inv(w) && h in w.helpers && w.helpers[h].pc.ReleaseUnlink?
    ensures Inv(Unlink(w, h, o))
  {
    var w' := Unlink(w, h, o);
    assert HelperOk(w, h, w.helpers[h]);
    UnlinkMoves(w, h, o);
    if w' == Refuse(w, h, IoError) {
      RefusePreserves(w, h, IoError);
    } else {
      var s := w.helpers[h].(pc := Exited, reply := ReleaseOk);
      ControlFrame(w, w', h, s);
      UnlinkKeepsLedger(w, w', h, s);
      UnlinkRely(w, w', h, s);
      UnlinkerOk(w, w', h, s);
      OthersStable(w, w', h, s);
    }
  }

  // ---------- every action, every run ----------

  lemma LockedIsOk(w: World, h: Identity, s: Helper)
    requires HelperOk(w, h, s) && Locking(s.pc)
    ensures HelperOk(w, h, s.(pc := AfterLock(s.pc)))
  {
  }

  lemma LockStepPreserves(w: World, h: Identity, o: Oracle)
    requires Inv(w) && h in w.helpers && Locking(w.helpers[h].pc)
    ensures Inv(Lock(w, h, AfterLock(w.helpers[h].pc), o))
  {
    assert HelperOk(w, h, w.helpers[h]);
    hide Inv;
    LockedIsOk(w, h, w.helpers[h]);
    hide HelperOk;
    LockPreserves(w, h, AfterLock(w.helpers[h].pc), o);
  }

  lemma WriteStepPreserves(w: World, h: Identity, o: Oracle)
    requires Inv(w) && h in w.helpers && Writing(w.helpers[h].pc)
    ensures var s := w.helpers[h];
            s.self.Known? && Inv(Commit(w, h, MakeRecord(s, h, WritePhase(s.pc)), o, WriteReply(s.pc)))
  {
    var s := w.helpers[h];
    assert HelperOk(w, h, s);
    CommitPreserves(w, h, WritePhase(s.pc), o, WriteReply(s.pc));
  }

  lemma EffectPreserves(w: World, h: Identity, o: Oracle)
    requires Inv(w) && h in w.helpers && !Deciding(w.helpers[h].pc)
    ensures Inv(Effect(w, h, o))
  {
    var pc := w.helpers[h].pc;
    if Searching(pc) {
      SearchPreserves(w, h);
    } else if Locking(pc) {
      LockStepPreserves(w, h, o);
    } else if pc.PinSignal? {
      SendSignalPreserves(w, h, o);
    } else if pc.ReleaseUnlink? {
      UnlinkPreserves(w, h, o);
    } else if Writing(pc) {
      WriteStepPreserves(w, h, o);
    }
  }

  lemma HelperStepPreserves(w: World, h: Identity, o: Oracle)
    requires Inv(w) && h in w.helpers
    ensures Inv(HelperStep(w, h, o))
  {
    if Deciding(w.helpers[h].pc) {
      DecisionIsSound(w, h, o);
      PerformPreserves(w, h, Decide(w, w.helpers[h], o));
    } else {
      EffectPreserves(w, h, o);
    }
  }

  lemma StartActionPreserves(w: World, h: Identity, slot: nat, t: Transport)
    requires Inv(w)
    ensures Inv(Start(w, h, slot, t))
  {
    var w' := Start(w, h, slot, t);
    if w' != w {
      var s := Helper(slot, w.issued[slot], t, false, Unknown, Idle, Pending, 0);
      NewHelperOk(w', h, s);
      StartPreserves(w, w', h, s);
    }
  }

  lemma SystemActionPreserves(w: World, a: Action)
    requires Inv(w) && (a.Spawn? || a.Exit? || a.Reap? || a.Sockets?)
    ensures Inv(Apply(w, a))
  {
    match a {
      case Spawn(id, parent) =>
        SpawnAges(w, id, parent);
        SystemMovePreserves(w, SpawnProcess(w, id, parent));
      case Exit(pid) => ExitPreserves(w, pid);
      case Reap(pid) =>
        ReapAges(w, pid);
        SystemMovePreserves(w, ReapProcess(w, pid));
      case Sockets(_, _, _, _) => SystemMovePreserves(w, Apply(w, a));
    }
  }

  lemma ReservePreserves(w: World, d: string, owner: string, rule: string, session: string, host: nat,
                         port: nat, save: Save)
    requires Inv(w)
    ensures Inv(ReserveAt(w, d, owner, rule, session, host, port, save))
  {
    ReserveKeepsManagers(w, d, owner, rule, session, host, port, save);
    ManagerMovePreserves(w, ReserveAt(w, d, owner, rule, session, host, port, save));
  }

  lemma OpenMoves(w: World, d: string, newOwner: string, save: Save)
    ensures ManagerMove(w, OpenAt(w, d, newOwner, save))
  {
  }

  lemma OpenPreserves(w: World, d: string, newOwner: string, save: Save)
    requires Inv(w)
    ensures Inv(OpenAt(w, d, newOwner, save))
  {
    OpenKeepsManagers(w, d, newOwner, save);
    OpenMoves(w, d, newOwner, save);
    ManagerMovePreserves(w, OpenAt(w, d, newOwner, save));
  }

  lemma TamperPreserves(w: World, d: string, remove: bool)
    requires Inv(w)
    ensures Inv(TamperAt(w, d, remove))
  {
    TamperKeepsManagers(w, d, remove);
    ManagerMovePreserves(w, TamperAt(w, d, remove));
  }

  lemma ManagerActionPreserves(w: World, a: Action)
    requires Inv(w) && (a.OpenManager? || a.Reserve? || a.Tamper?)
    ensures Inv(Apply(w, a))
  {
    if a.OpenManager? {
      OpenPreserves(w, a.directory, a.newOwner, a.save);
    } else if a.Tamper? {
      TamperPreserves(w, a.directory, a.remove);
    } else {
      ReservePreserves(w, a.directory, a.owner, a.rule, a.session, a.host, a.port, a.save);
    }
  }

  lemma HelperActionPreserves(w: World, a: Action)
    requires Inv(w) && (a.StartHelper? || a.Request? || a.Advance?)
    ensures Inv(Apply(w, a))
  {
    hide Inv, HelperStep, Receive, Start;
    match a {
      case StartHelper(h, slot, t) => StartActionPreserves(w, h, slot, t);
      case Request(h, command) => if Running(w, h) && w.helpers[h].pc.Idle? { ReceivePreserves(w, h, command); }
      case Advance(h, o) => if Running(w, h) { HelperStepPreserves(w, h, o); }
    }
  }

  /** Every reachable world satisfies the invariant. */
  lemma {:induction false} RunKeepsInvariant(actions: seq<Action>)
    ensures Inv(Run(actions))
  {
    if actions != [] {
      var before := actions[..|actions| - 1];
      var a := actions[|actions| - 1];
      hide Inv, Apply;
      RunKeepsInvariant(before);
      if a.Spawn? || a.Exit? || a.Reap? || a.Sockets? {
        SystemActionPreserves(Run(before), a);
      } else if a.OpenManager? || a.Reserve? || a.Tamper? {
        ManagerActionPreserves(Run(before), a);
      } else {
        HelperActionPreserves(Run(before), a);
      }
    }
  }
}
