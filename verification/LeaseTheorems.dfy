/** What the lease protocol guarantees in every run, stated over `Run(actions)`. */
module LeaseTheorems {
  import opened Recovery
  import opened LeaseWorld
  import opened LeaseSafety

  /** Every session ever registered is the current one, or dead, or was released by its own helper. */
  lemma EverySessionIsSettled(actions: seq<Action>, r: Record)
    requires r in Run(actions).history
    ensures var w := Run(actions);
            || Stands(w, r)
            || Dead(w, r.session)
            || (r.claim in w.released && exists h :: h in w.helpers && w.helpers[h].claim == r.claim && w.helpers[h].pc.Exited?)
  {
    RunKeepsInvariant(actions);
    assert HistoryOk(Run(actions)) && ReleasedOk(Run(actions));
    assert Settled(Run(actions), r);
  }

  /** Hence one rule has at most one live, unreleased session. */
  lemma OneLiveSessionPerRule(actions: seq<Action>, r1: Record, r2: Record)
    requires var w := Run(actions);
      && r1 in w.history && r2 in w.history && KeyOf(r1.claim) == KeyOf(r2.claim)
      && !Dead(w, r1.session) && r1.claim !in w.released
      && !Dead(w, r2.session) && r2.claim !in w.released
    ensures r1.session == r2.session && r1.claim == r2.claim
  {
    EverySessionIsSettled(actions, r1);
    EverySessionIsSettled(actions, r2);
  }

  /** A signal reaches exactly an incarnation recorded earlier for the same rule under a smaller
      generation, and never the signaller's own session. */
  lemma SignalsAreExact(actions: seq<Action>, i: nat)
    requires i < |Run(actions).signals|
    ensures var w := Run(actions);
            var s := w.signals[i];
            && s.target != s.session
            && exists r :: r in w.history && KeyOf(r.claim) == s.key && r.session == s.target && r.claim.generation < s.generation
  {
    RunKeepsInvariant(actions);
    assert Justified(Run(actions), Run(actions).signals[i]);
  }

  /** A claim refused because its changed address is occupied has signalled nobody. */
  lemma AddressRefusalSignalsNobody(actions: seq<Action>, h: Identity, i: nat)
    requires var w := Run(actions);
      h in w.helpers && w.helpers[h].reply == Refused(NewAddressOccupied) && w.helpers[h].mark <= i < |w.signals|
    ensures Run(actions).signals[i].sender != h
  {
    RunKeepsInvariant(actions);
    assert HelperOk(Run(actions), h, Run(actions).helpers[h]);
  }

  /** No (owner, rule, generation) is handed out twice, and later reservations carry larger ones. */
  lemma ReservationsAreOrdered(actions: seq<Action>, i: nat, j: nat)
    requires i < j < |Run(actions).issued| && KeyOf(Run(actions).issued[i]) == KeyOf(Run(actions).issued[j])
    ensures Run(actions).issued[i].generation < Run(actions).issued[j].generation
  {
    RunKeepsInvariant(actions);
    assert ManagersOk(Run(actions));
  }

  // ---------- fencing, step by step ----------

  /** `r'` is the same registration, possibly confirmed meanwhile. */
  predicate SameRegistration(r: Record, r': Record) {
    r'.claim == r.claim && r'.session == r.session && r'.helper == r.helper
  }

  /** Only `h` acted, and only on the record of its own rule. */
  predicate Fenced(w: World, w': World, h: Identity, k: Key)
    requires h in w.helpers && k in w.records
  {
    if k !in w'.records then w.records[k].helper == h && w.records[k].claim in w'.released
    else if w'.records[k] == w.records[k] then true
    else if w'.records[k].helper != h then false
    else if SameRegistration(w.records[k], w'.records[k]) then true
    else
      && w'.records[k].claim.generation > w.records[k].claim.generation
      && w.records[k].helper in w.helpers && w.helpers[w.records[k].helper].slot < w.helpers[h].slot
  }

  lemma CommitIsFenced(w: World, h: Identity, phase: Phase, o: Oracle, ok: Reply, k: Key)
    requires RecordsOk(w) && SlotsOk(w) && ManagersOk(w) && h in w.helpers && HelperOk(w, h, w.helpers[h])
    requires w.helpers[h].self.Known? && (ok.ClaimOk? || ok.ConfirmOk?) && k in w.records
    requires var pc := w.helpers[h].pc; if ok.ClaimOk? then pc.WriteFresh? || pc.WriteAfter? else pc.ConfirmWrite?
    ensures Fenced(w, Commit(w, h, MakeRecord(w.helpers[h], h, phase), o, ok), h, k)
  {
    var s := w.helpers[h];
    var r := MakeRecord(s, h, phase);
    CommitRecords(w, h, r, o, ok);
    assert WrittenBy(w, w.records[k]);
    if k == KeyOf(s.claim) && s.pc.WriteAfter? { LaterReservation(w, w.records[k].helper, h); }
  }

  lemma CommitRecords(w: World, h: Identity, r: Record, o: Oracle, ok: Reply)
    requires h in w.helpers
    ensures Commit(w, h, r, o, ok).records == if o.write.NotWritten? then w.records else w.records[KeyOf(r.claim) := r]
  {
  }

  lemma LaterReservation(w: World, g: Identity, h: Identity)
    requires SlotsOk(w) && ManagersOk(w) && g in w.helpers && h in w.helpers
    requires KeyOf(w.helpers[g].claim) == KeyOf(w.helpers[h].claim)
    requires w.helpers[g].claim.generation < w.helpers[h].claim.generation
    ensures w.helpers[g].slot < w.helpers[h].slot
  {
    var i, j := w.helpers[g].slot, w.helpers[h].slot;
    assert w.issued[i] == w.helpers[g].claim && w.issued[j] == w.helpers[h].claim;
  }

  lemma UnlinkIsFenced(w: World, h: Identity, o: Oracle, k: Key)
    requires Inv(w) && h in w.helpers && w.helpers[h].pc.ReleaseUnlink? && k in w.records
    ensures Fenced(w, Unlink(w, h, o), h, k)
  {
    assert HelperOk(w, h, w.helpers[h]);
  }

  lemma WriteIsFenced(w: World, h: Identity, o: Oracle, k: Key)
    requires Inv(w) && h in w.helpers && k in w.records && Writing(w.helpers[h].pc)
    ensures Fenced(w, Effect(w, h, o), h, k)
  {
    hide Inv, HelperOk, RecordsOk, SlotsOk, ManagersOk, Commit, Fenced, MakeRecord;
    var pc := w.helpers[h].pc;
    WriterStands(w, h);
    CommitIsFenced(w, h, WritePhase(pc), o, WriteReply(pc), k);
  }

  lemma EffectIsFenced(w: World, h: Identity, o: Oracle, k: Key)
    requires Inv(w) && h in w.helpers && k in w.records && !Deciding(w.helpers[h].pc)
    ensures Fenced(w, Effect(w, h, o), h, k)
  {
    hide Inv, Lock, SendSignal, Search, Commit, Unlink, Fenced;
    var pc := w.helpers[h].pc;
    if pc.ReleaseUnlink? {
      UnlinkIsFenced(w, h, o, k);
    } else {
      hide Effect;
      if Writing(pc) {
        WriteIsFenced(w, h, o, k);
      } else {
        QuietEffectKeepsRecords(w, h, o);
        KeptIsFenced(w, Effect(w, h, o), h, k);
      }
    }
  }

  lemma WriterStands(w: World, h: Identity)
    requires Inv(w) && h in w.helpers && Writing(w.helpers[h].pc)
    ensures HelperOk(w, h, w.helpers[h]) && w.helpers[h].self.Known? && RecordsOk(w) && SlotsOk(w) && ManagersOk(w)
  {
  }

  lemma KeptIsFenced(w: World, w': World, h: Identity, k: Key)
    requires h in w.helpers && k in w.records && w'.records == w.records
    ensures Fenced(w, w', h, k)
  {
  }

  lemma QuietEffectKeepsRecords(w: World, h: Identity, o: Oracle)
    requires h in w.helpers && (w.helpers[h].pc.PinSignal? || !Critical(w.helpers[h].pc))
    ensures Effect(w, h, o).records == w.records
  {
    hide Search, Commit, Unlink, AfterLock;
  }

  /** While a record stands, only a later reservation's claim replaces it; a superseded helper's
      confirm or release leaves it alone, and nothing but its own release removes it. */
  lemma RecordsAreFenced(actions: seq<Action>, a: Action, k: Key)
    requires k in Run(actions).records
    ensures var w, w' := Run(actions), Apply(Run(actions), a);
            if a.Advance? && a.helper in w.helpers then Fenced(w, w', a.helper, k)
            else k in w'.records && w'.records[k] == w.records[k]
  {
    var w := Run(actions);
    RunKeepsInvariant(actions);
    hide Inv, Effect, Decide;
    if a.Advance? {
      if Running(w, a.helper) && !Deciding(w.helpers[a.helper].pc) { EffectIsFenced(w, a.helper, a.oracle, k); }
    } else {
      OtherActionsKeepRecords(w, a);
    }
  }

  lemma OtherActionsKeepRecords(w: World, a: Action)
    requires !a.Advance?
    ensures Apply(w, a).records == w.records
  {
  }

  // ---------- crashes ----------

  /** A helper that is not alive has left its critical section. */
  predicate NoOrphans(w: World) {
    forall h :: h in w.helpers && !w.helpers[h].pc.Exited? ==> !Dead(w, h)
  }

  /** Processes stay as they are and helpers other than `h` do not move. */
  predicate TouchesOnly(w: World, w': World, h: Identity)
    requires h in w.helpers
  {
    w'.procs == w.procs && h in w'.helpers && (w'.helpers == w.helpers || w'.helpers == w.helpers[h := w'.helpers[h]])
  }

  lemma PerformTouches(w: World, h: Identity, move: Move)
    requires h in w.helpers
    ensures TouchesOnly(w, Perform(w, h, move), h)
  {
  }

  lemma CommitTouches(w: World, h: Identity, r: Record, o: Oracle, ok: Reply)
    requires h in w.helpers
    ensures TouchesOnly(w, Commit(w, h, r, o, ok), h)
  {
  }

  lemma UnlinkTouches(w: World, h: Identity, o: Oracle)
    requires h in w.helpers
    ensures TouchesOnly(w, Unlink(w, h, o), h)
  {
  }

  lemma SendSignalTouches(w: World, h: Identity, o: Oracle)
    requires h in w.helpers && w.helpers[h].pc.PinSignal?
    ensures TouchesOnly(w, SendSignal(w, h, o), h)
  {
  }

  lemma LockTouches(w: World, h: Identity, pc: Pc, o: Oracle)
    requires h in w.helpers
    ensures TouchesOnly(w, Lock(w, h, pc, o), h)
  {
  }

  lemma EffectTouches(w: World, h: Identity, o: Oracle)
    requires h in w.helpers
    ensures TouchesOnly(w, Effect(w, h, o), h)
  {
    var s := w.helpers[h];
    if Locking(s.pc) {
      LockTouches(w, h, AfterLock(s.pc), o);
    } else if s.pc.PinSignal? {
      SendSignalTouches(w, h, o);
    } else if s.pc.ReleaseUnlink? {
      UnlinkTouches(w, h, o);
    } else if Writing(s.pc) && s.self.Known? {
      CommitTouches(w, h, MakeRecord(s, h, WritePhase(s.pc)), o, WriteReply(s.pc));
    }
  }

  lemma TouchLeavesNoOrphans(w: World, w': World, h: Identity)
    requires NoOrphans(w) && Running(w, h) && TouchesOnly(w, w', h)
    ensures NoOrphans(w')
  {
  }

  lemma SystemLeavesNoOrphans(w: World, a: Action)
    requires NoOrphans(w) && ProcsOk(w) && (a.Spawn? || a.Exit? || a.Reap? || a.Sockets?)
    ensures NoOrphans(Apply(w, a))
  {
  }

  lemma OthersLeaveNoOrphans(w: World, a: Action)
    requires NoOrphans(w) && (a.OpenManager? || a.Reserve? || a.Tamper? || a.StartHelper? || a.Request?)
    ensures NoOrphans(Apply(w, a))
  {
    if a.Request? && Running(w, a.helper) && w.helpers[a.helper].pc.Idle? {
      TouchLeavesNoOrphans(w, Receive(w, a.helper, a.command), a.helper);
    }
  }

  lemma AdvanceLeavesNoOrphans(w: World, h: Identity, o: Oracle)
    requires NoOrphans(w) && Running(w, h)
    ensures NoOrphans(HelperStep(w, h, o))
  {
    if Deciding(w.helpers[h].pc) {
      var move := Decide(w, w.helpers[h], o);
      PerformTouches(w, h, move);
      TouchLeavesNoOrphans(w, Perform(w, h, move), h);
    } else {
      EffectTouches(w, h, o);
      TouchLeavesNoOrphans(w, Effect(w, h, o), h);
    }
  }

  lemma {:induction false} RunLeavesNoOrphans(actions: seq<Action>)
    ensures NoOrphans(Run(actions))
  {
    if actions != [] {
      var before := actions[..|actions| - 1];
      RunLeavesNoOrphans(before);
      RunKeepsInvariant(before);
      var a := actions[|actions| - 1];
      if a.Spawn? || a.Exit? || a.Reap? || a.Sockets? {
        SystemLeavesNoOrphans(Run(before), a);
      } else if !a.Advance? {
        OthersLeaveNoOrphans(Run(before), a);
      } else if Running(Run(before), a.helper) {
        AdvanceLeavesNoOrphans(Run(before), a.helper, a.oracle);
      }
    }
  }

  /** Whoever dies, a rule's lock is only ever held by a live helper in its critical section. */
  lemma CrashesNeverWedgeARule(actions: seq<Action>, k: Key)
    requires k in Run(actions).locks
    ensures var w := Run(actions);
            Running(w, w.locks[k]) && Critical(w.helpers[w.locks[k]].pc) && KeyOf(w.helpers[w.locks[k]].claim) == k
  {
    RunKeepsInvariant(actions);
    RunLeavesNoOrphans(actions);
    assert LocksOk(Run(actions));
  }
}
