/** What helpers have seen before they act, stated over the moments of a run. Each observation has a
    moment of its own, at which the very helper that acts on it took that step: nothing is claimed to
    have held all at once. */
module LeaseEvidence {
  import opened Recovery
  import opened LeaseWorld
  import opened LeaseSafety
  import LeaseTheorems

  /** A world of a run and what was done in it. */
  datatype Moment = Moment(world: World, action: Action)

  ghost function Moments(actions: seq<Action>): seq<Moment> {
    if actions == [] then []
    else
      var front := actions[..|actions| - 1];
      Moments(front) + [Moment(Run(front), actions[|actions| - 1])]
  }

  /** The k-th moment is the k-th action in the world its predecessors have led to. */
  lemma {:induction false} MomentsAreSteps(actions: seq<Action>)
    ensures |Moments(actions)| == |actions|
    ensures forall k :: 0 <= k < |actions| ==> Moments(actions)[k] == Moment(Run(actions[..k]), actions[k])
  {
    hide Run;
    if actions != [] {
      var front := actions[..|actions| - 1];
      MomentsAreSteps(front);
      assert forall k :: 0 <= k < |front| ==> front[..k] == actions[..k];
    }
  }

  // ---------- things seen ----------

  /** One observation of a helper. */
  datatype Sight =
    | OwnAncestor(transport: Transport, session: Identity)
    | Connection(transport: Transport, proof: SocketProof)
    | ConnectionInode(transport: Transport, inode: nat)
    | There(id: Identity) | Gone(id: Identity)
    | Listing(host: nat, port: nat, found: Lookup)
    | Probe(host: nat, port: nat)
    | Descriptors(pid: nat, inode: nat, owner: Ownership)
    | Standing(key: Key, proof: SocketProof)

  /** What the step of helper `h` at this moment has shown. A probe of an address lets a claim pass if
      the bind found nobody listening, or failed for another reason than an occupied address. */
  ghost predicate Shows(w: World, h: Identity, o: Oracle, sight: Sight) {
    match sight
    case OwnAncestor(t, session) => OwnSession(w, h, t) == Ancestor(session)
    case Connection(t, proof) => Connected(w, t) && w.connections[t] == proof
    case ConnectionInode(t, inode) => Connected(w, t) && w.connections[t].inode == inode
    case There(id) => Present(w, id)
    case Gone(id) => id in w.born && !Present(w, id)
    case Listing(host, port, found) => FindListener(w, host, port) == found
    case Probe(host, port) => o.bindError || (!o.bindDenied && FindListener(w, host, port).NoListener?)
    case Descriptors(pid, inode, owner) => OwnedBy(w, pid, inode) == owner
    case Standing(key, proof) => key in w.records && w.records[key].sessionProof == proof
  }

  /** At this position of its code the helper takes this look, at this very object. */
  predicate LooksAt(s: Helper, sight: Sight) {
    match sight
    case OwnAncestor(t, _) => s.pc.ClaimSession? && t == s.transport
    case Connection(t, _) =>
      ((s.pc.ClaimTransport? || s.pc.ConfirmTransport?) && t == s.transport) || (s.pc.OldProof? && t == s.pc.prior.transport)
    case ConnectionInode(t, _) => s.pc.OldInode? && t == s.pc.prior.transport
    case There(id) => s.pc.ConfirmIdentity? && s.self.Known? && id == s.self.session
    case Gone(id) => s.pc.OldIdentity? && id == s.pc.prior.session
    case Listing(host, port, _) => Lists(s.pc) && AtAddress(Looked(s), host, port)
    case Probe(host, port) => Probes(s.pc) && AtAddress(Looked(s), host, port)
    case Descriptors(pid, inode, _) =>
      || (s.pc.OldDescriptors? && pid == s.pc.prior.session.pid && inode == s.pc.inode)
      || (s.pc.OldOwner? && pid == s.pc.prior.session.pid && inode == s.pc.row.inode)
      || (s.pc.ConfirmOwner? && s.self.Known? && pid == s.self.session.pid && inode == s.pc.row.inode)
    case Standing(key, _) => s.pc.ConfirmOwner? && key == KeyOf(s.claim)
  }

  predicate Lists(pc: Pc) {
    || pc.OldListener? || pc.NewAddress? || pc.GoneCheck? || pc.FinalCheckFresh? || pc.FinalCheckAfter?
    || pc.ConfirmListener?
  }

  predicate Probes(pc: Pc) {
    || pc.OldProbe? || pc.OldGoneProbe? || pc.NewProbe? || pc.GoneProbe? || pc.FinalProbeFresh? || pc.FinalProbeAfter?
  }

  /** The claim whose address is looked at: the recorded one, or else the helper's own. */
  function Looked(s: Helper): Claim {
    if s.pc.OldListener? || s.pc.OldProbe? || s.pc.OldGoneProbe? then s.pc.prior.claim else s.claim
  }

  predicate AtAddress(claim: Claim, host: nat, port: nat) {
    claim.host == host && claim.port == port
  }

  /** The helper runs and takes just this look as its next step. */
  predicate Takes(m: Moment, h: Identity, sight: Sight) {
    m.action.Advance? && m.action.helper == h && Running(m.world, h) && LooksAt(m.world.helpers[h], sight)
  }

  ghost predicate Sees(m: Moment, h: Identity, sight: Sight) {
    Takes(m, h, sight) && Shows(m.world, h, m.action.oracle, sight)
  }

  ghost predicate Saw(past: seq<Moment>, h: Identity, sight: Sight) {
    exists i :: 0 <= i < |past| && Sees(past[i], h, sight)
  }

  /** The address was listed without a single listener: with none, or with more than can be told apart. */
  ghost predicate Unlisted(past: seq<Moment>, h: Identity, claim: Claim) {
    || Saw(past, h, Listing(claim.host, claim.port, NoListener))
    || Saw(past, h, Listing(claim.host, claim.port, Ambiguous))
  }

  /** And a probe of it let the claim pass. */
  ghost predicate SawFree(past: seq<Moment>, h: Identity, claim: Claim) {
    Unlisted(past, h, claim) && Saw(past, h, Probe(claim.host, claim.port))
  }

  /** The one listener at exactly the claimed address was this socket, of this user. */
  ghost predicate SawListener(past: seq<Moment>, h: Identity, claim: Claim, proof: SocketProof, uid: nat) {
    exists row :: OwnRow(row, claim, proof, uid) && Saw(past, h, Listing(claim.host, claim.port, One(row)))
  }

  predicate OwnRow(row: Listener, claim: Claim, proof: SocketProof, uid: nat) {
    row.host == claim.host && row.uid == uid && proof == SocketProof(row.uid, row.inode)
  }

  /** The session held the socket, or it hid what it holds while the record still named its connection. */
  ghost predicate SawHolder(past: seq<Moment>, h: Identity, key: Key, pid: nat, inode: nat, proof: SocketProof) {
    || Saw(past, h, Descriptors(pid, inode, Owned))
    || (Saw(past, h, Descriptors(pid, inode, Denied)) && Saw(past, h, Standing(key, proof)))
  }

  /** The recorded connection was there and the recorded session held it, or hid what it holds while
      the connection was exactly the recorded one. */
  ghost predicate SawTransport(past: seq<Moment>, h: Identity, r: Record) {
    exists inode :: Saw(past, h, ConnectionInode(r.transport, inode)) && HeldTransport(past, h, r, inode)
  }

  ghost predicate HeldTransport(past: seq<Moment>, h: Identity, r: Record, inode: nat) {
    || Saw(past, h, Descriptors(r.session.pid, inode, Owned))
    || (Saw(past, h, Descriptors(r.session.pid, inode, Denied)) && Saw(past, h, Connection(r.transport, r.sessionProof)))
  }

  ghost predicate SawHiddenTransport(past: seq<Moment>, h: Identity, r: Record) {
    exists inode :: Saw(past, h, ConnectionInode(r.transport, inode)) && Saw(past, h, Descriptors(r.session.pid, inode, Denied))
  }

  /** Nothing listened at the recorded address, or the one that did was the recorded session's. */
  ghost predicate Vouched(past: seq<Moment>, h: Identity, r: Record) {
    || (Saw(past, h, Listing(r.claim.host, r.claim.port, NoListener)) && Saw(past, h, Probe(r.claim.host, r.claim.port)))
    || exists row :: SawOldRow(past, h, r, row) && VouchedRow(past, h, r, row)
  }

  /** A single listener, of the recorded user. */
  ghost predicate SawOldRow(past: seq<Moment>, h: Identity, r: Record, row: Listener) {
    Saw(past, h, Listing(r.claim.host, r.claim.port, One(row))) && row.uid == r.session.uid
  }

  /** Held by the recorded session or with descriptors hidden, and for a confirmed record the recorded
      socket. For a record that was never confirmed hidden descriptors leave only the user to go by. */
  ghost predicate VouchedRow(past: seq<Moment>, h: Identity, r: Record, row: Listener) {
    && (Saw(past, h, Descriptors(r.session.pid, row.inode, Owned)) || Saw(past, h, Descriptors(r.session.pid, row.inode, Denied)))
    && (r.phase.Confirmed? ==> r.phase.listener == SocketProof(row.uid, row.inode))
  }

  // ---------- what a helper's position says it has seen ----------

  ghost predicate SelfBacked(past: seq<Moment>, h: Identity, s: Helper) {
    && (s.pc.ClaimTransport? ==> Saw(past, h, OwnAncestor(s.transport, s.pc.found)))
    && (s.self.Known? ==>
          Saw(past, h, OwnAncestor(s.transport, s.self.session)) && Saw(past, h, Connection(s.transport, s.self.proof)))
  }

  ghost predicate ClaimBacked(past: seq<Moment>, h: Identity, s: Helper) {
    && (s.pc.FinalProbeFresh? || s.pc.FinalProbeAfter? ==> Unlisted(past, h, s.claim))
    && (s.pc.WriteFresh? || s.pc.WriteAfter? || s.claimed ==> SawFree(past, h, s.claim))
  }

  /** A confirmation has seen its session, then its connection, then its listener. */
  ghost predicate SawSelf(past: seq<Moment>, h: Identity, s: Helper) {
    s.self.Known? && Saw(past, h, There(s.self.session))
  }

  ghost predicate ConfirmBacked(past: seq<Moment>, h: Identity, s: Helper) {
    && (s.pc.ConfirmTransport? || s.pc.ConfirmListener? || s.pc.ConfirmOwner? || s.pc.ConfirmWrite? ==> SawSelf(past, h, s))
    && (s.pc.ConfirmOwner? ==>
          s.self.Known? && SawListener(past, h, s.claim, SocketProof(s.pc.row.uid, s.pc.row.inode), s.self.session.uid))
    && (s.pc.ConfirmWrite? ==>
          s.self.Known? && SawListener(past, h, s.claim, s.pc.proof, s.self.session.uid)
          && SawHolder(past, h, KeyOf(s.claim), s.self.session.pid, s.pc.proof.inode, s.self.proof))
  }

  /** Past `validate_old_record`: the session was gone, or its connection was proved. */
  ghost predicate SessionChecked(past: seq<Moment>, h: Identity, r: Record) {
    Saw(past, h, Gone(r.session)) || SawTransport(past, h, r)
  }

  ghost predicate PriorBacked(past: seq<Moment>, h: Identity, pc: Pc) {
    HasPrior(pc) ==>
      && (pc.OldDescriptors? ==> Saw(past, h, ConnectionInode(pc.prior.transport, pc.inode)))
      && (pc.OldProof? ==> SawHiddenTransport(past, h, pc.prior))
      && (!CheckingSession(pc) ==> SessionChecked(past, h, pc.prior))
      && (pc.OldProbe? ==> Saw(past, h, Listing(pc.prior.claim.host, pc.prior.claim.port, NoListener)))
      && (pc.OldOwner? ==> SawOldRow(past, h, pc.prior, pc.row))
      && (!CheckingSession(pc) && !pc.OldListener? && !pc.OldProbe? && !pc.OldOwner? ==> Vouched(past, h, pc.prior))
  }

  ghost predicate Backed(past: seq<Moment>, h: Identity, s: Helper) {
    SelfBacked(past, h, s) && ClaimBacked(past, h, s) && ConfirmBacked(past, h, s) && PriorBacked(past, h, s.pc)
  }

  /** What the writer of a record saw before it wrote. */
  ghost predicate RecordBacked(past: seq<Moment>, r: Record) {
    && Saw(past, r.helper, OwnAncestor(r.transport, r.session)) && Saw(past, r.helper, Connection(r.transport, r.sessionProof))
    && SawFree(past, r.helper, r.claim)
    && (r.phase.Confirmed? ==>
          && Saw(past, r.helper, There(r.session))
          && SawListener(past, r.helper, r.claim, r.phase.listener, r.session.uid)
          && SawHolder(past, r.helper, KeyOf(r.claim), r.session.pid, r.phase.listener.inode, r.sessionProof))
  }

  /** The target's own record was found, its connection proved, and its listener vouched for. */
  ghost predicate Verified(past: seq<Moment>, history: seq<Record>, s: Signal, r: Record) {
    && r in history && KeyOf(r.claim) == s.key && r.session == s.target && r.claim.generation < s.generation
    && SawTransport(past, s.sender, r) && Vouched(past, s.sender, r)
  }

  ghost predicate SignalBacked(past: seq<Moment>, history: seq<Record>, s: Signal) {
    exists r :: Verified(past, history, s, r)
  }

  ghost predicate Evidence(past: seq<Moment>, w: World) {
    && AllBacked(past, w)
    && (forall i :: 0 <= i < |w.history| ==> RecordBacked(past, w.history[i]))
    && (forall i :: 0 <= i < |w.signals| ==> SignalBacked(past, w.history, w.signals[i]))
    && (forall i :: 0 <= i < |past| ==> Aged(past[i].world, w))
  }

  ghost predicate AllBacked(past: seq<Moment>, w: World) {
    forall h :: h in w.helpers ==> Backed(past, h, w.helpers[h])
  }

  // ---------- seeing more does not unsee anything ----------

  /** All that was seen earlier is still seen. */
  ghost predicate Remembered(past: seq<Moment>, more: seq<Moment>) {
    forall h, sight :: Saw(past, h, sight) ==> Saw(more, h, sight)
  }

  lemma SightsStay(past: seq<Moment>, m: Moment)
    ensures Remembered(past, past + [m])
  {
    var more := past + [m];
    forall h, sight | Saw(past, h, sight) ensures Saw(more, h, sight) {
      var i :| 0 <= i < |past| && Sees(past[i], h, sight);
      assert more[i] == past[i];
    }
  }

  lemma TransportStays(past: seq<Moment>, more: seq<Moment>, h: Identity, r: Record)
    requires Remembered(past, more)
    ensures SawTransport(past, h, r) ==> SawTransport(more, h, r)
    ensures SawHiddenTransport(past, h, r) ==> SawHiddenTransport(more, h, r)
    ensures SessionChecked(past, h, r) ==> SessionChecked(more, h, r)
  {
    hide Saw;
    if SawTransport(past, h, r) {
      var inode :| Saw(past, h, ConnectionInode(r.transport, inode)) && HeldTransport(past, h, r, inode);
      assert Saw(more, h, ConnectionInode(r.transport, inode)) && HeldTransport(more, h, r, inode);
    }
    if SawHiddenTransport(past, h, r) {
      var inode :| Saw(past, h, ConnectionInode(r.transport, inode)) && Saw(past, h, Descriptors(r.session.pid, inode, Denied));
      assert Saw(more, h, ConnectionInode(r.transport, inode)) && Saw(more, h, Descriptors(r.session.pid, inode, Denied));
    }
  }

  lemma VouchedStays(past: seq<Moment>, more: seq<Moment>, h: Identity, r: Record)
    requires Remembered(past, more)
    ensures Vouched(past, h, r) ==> Vouched(more, h, r)
    ensures forall row :: SawOldRow(past, h, r, row) ==> SawOldRow(more, h, r, row)
  {
    hide Saw;
    if row :| SawOldRow(past, h, r, row) && VouchedRow(past, h, r, row) {
      assert SawOldRow(more, h, r, row) && VouchedRow(more, h, r, row);
    }
  }

  lemma ListenerStays(past: seq<Moment>, more: seq<Moment>, h: Identity, claim: Claim, proof: SocketProof, uid: nat)
    requires Remembered(past, more) && SawListener(past, h, claim, proof, uid)
    ensures SawListener(more, h, claim, proof, uid)
  {
    hide Saw;
    var row :| OwnRow(row, claim, proof, uid) && Saw(past, h, Listing(claim.host, claim.port, One(row)));
    assert Saw(more, h, Listing(claim.host, claim.port, One(row)));
  }

  lemma HolderStays(past: seq<Moment>, more: seq<Moment>, h: Identity, key: Key, pid: nat, inode: nat, proof: SocketProof)
    requires Remembered(past, more) && SawHolder(past, h, key, pid, inode, proof)
    ensures SawHolder(more, h, key, pid, inode, proof)
  {
    hide Saw;
  }

  lemma FreeStays(past: seq<Moment>, more: seq<Moment>, h: Identity, claim: Claim)
    requires Remembered(past, more)
    ensures SawFree(past, h, claim) ==> SawFree(more, h, claim)
    ensures Unlisted(past, h, claim) ==> Unlisted(more, h, claim)
  {
    hide Saw;
  }

  lemma BackedStays(past: seq<Moment>, more: seq<Moment>, h: Identity, s: Helper)
    requires Remembered(past, more) && Backed(past, h, s)
    ensures Backed(more, h, s)
  {
    FreeStays(past, more, h, s.claim);
    if HasPrior(s.pc) {
      TransportStays(past, more, h, s.pc.prior);
      VouchedStays(past, more, h, s.pc.prior);
    }
    hide Saw, SawFree, Unlisted, SawTransport, SawHiddenTransport, SessionChecked, Vouched, SawOldRow, SawListener, SawHolder;
    if s.pc.ConfirmOwner? {
      ListenerStays(past, more, h, s.claim, SocketProof(s.pc.row.uid, s.pc.row.inode), s.self.session.uid);
    } else if s.pc.ConfirmWrite? {
      ListenerStays(past, more, h, s.claim, s.pc.proof, s.self.session.uid);
      HolderStays(past, more, h, KeyOf(s.claim), s.self.session.pid, s.pc.proof.inode, s.self.proof);
    }
  }

  lemma RecordBackedStays(past: seq<Moment>, more: seq<Moment>, r: Record)
    requires Remembered(past, more) && RecordBacked(past, r)
    ensures RecordBacked(more, r)
  {
    FreeStays(past, more, r.helper, r.claim);
    hide Saw, SawFree, SawListener, SawHolder;
    if r.phase.Confirmed? {
      ListenerStays(past, more, r.helper, r.claim, r.phase.listener, r.session.uid);
      HolderStays(past, more, r.helper, KeyOf(r.claim), r.session.pid, r.phase.listener.inode, r.sessionProof);
    }
  }

  lemma SignalBackedStays(past: seq<Moment>, more: seq<Moment>, history: seq<Record>, history': seq<Record>, s: Signal)
    requires Remembered(past, more) && SignalBacked(past, history, s) && forall r :: r in history ==> r in history'
    ensures SignalBacked(more, history', s)
  {
    var r :| Verified(past, history, s, r);
    TransportStays(past, more, s.sender, r);
    VouchedStays(past, more, s.sender, r);
    hide SawTransport, Vouched;
    assert Verified(more, history', s, r);
  }

  // ---------- one decision ----------

  /** A new position answers for itself only. */
  lemma RepositionBacked(past: seq<Moment>, h: Identity, s: Helper, next: Pc)
    requires Backed(past, h, s) && !next.ClaimTransport?
    requires ClaimBacked(past, h, s.(pc := next)) && ConfirmBacked(past, h, s.(pc := next)) && PriorBacked(past, h, next)
    ensures Backed(past, h, s.(pc := next))
  {
    hide Saw, ClaimBacked, ConfirmBacked, PriorBacked;
  }

  /** The step that is being taken adds what it looks at. */
  lemma Looking(past: seq<Moment>, w: World, h: Identity, o: Oracle, sight: Sight)
    requires |past| > 0 && past[|past| - 1] == Moment(w, Advance(h, o)) && Running(w, h)
    requires LooksAt(w.helpers[h], sight) && Shows(w, h, o, sight)
    ensures Saw(past, h, sight)
  {
    hide Shows, LooksAt;
    assert Sees(past[|past| - 1], h, sight);
  }

  lemma SessionDecisionSees(past: seq<Moment>, w: World, h: Identity, s: Helper, o: Oracle)
    requires |past| > 0 && past[|past| - 1] == Moment(w, Advance(h, o)) && CheckingSession(s.pc)
    requires Running(w, h) && w.helpers[h] == s
    requires PriorBacked(past, h, s.pc) && s.pc.prior.session in w.born
    ensures var move := DecideOldSession(w, s.pc);
            move.Go? ==> PriorBacked(past, h, move.pc) && HasPrior(move.pc) && Checking(move.pc)
  {
    var r, move := s.pc.prior, DecideOldSession(w, s.pc);
    hide Saw;
    if move.Go? {
      match s.pc {
        case OldIdentity(_) => if !Present(w, r.session) { Looking(past, w, h, o, Gone(r.session)); }
        case OldTransport(_) =>
        case OldInode(_) => Looking(past, w, h, o, ConnectionInode(r.transport, w.connections[r.transport].inode));
        case OldDescriptors(_, inode) =>
          Looking(past, w, h, o, Descriptors(r.session.pid, inode, OwnedBy(w, r.session.pid, inode)));
          assert move.pc.OldListener? ==> HeldTransport(past, h, r, inode);
        case OldProof(_) =>
          Looking(past, w, h, o, Connection(r.transport, r.sessionProof));
          var inode :| Saw(past, h, ConnectionInode(r.transport, inode)) && Saw(past, h, Descriptors(r.session.pid, inode, Denied));
          assert HeldTransport(past, h, r, inode);
      }
    }
  }

  lemma SessionDecisionBacked(past: seq<Moment>, w: World, h: Identity, s: Helper, o: Oracle)
    requires |past| > 0 && past[|past| - 1] == Moment(w, Advance(h, o)) && Backed(past, h, s) && CheckingSession(s.pc)
    requires Running(w, h) && w.helpers[h] == s && s.pc.prior.session in w.born
    ensures var move := DecideOldSession(w, s.pc); move.Go? ==> Backed(past, h, s.(pc := move.pc))
  {
    hide Backed, DecideOldSession, Saw, SawFree, PriorBacked, CheckingSession;
    BackedPrior(past, h, s);
    SessionDecisionSees(past, w, h, s, o);
    var move := DecideOldSession(w, s.pc);
    if move.Go? {
      CheckingBacked(past, h, s, move.pc);
    }
  }

  lemma CheckingBacked(past: seq<Moment>, h: Identity, s: Helper, next: Pc)
    requires Backed(past, h, s) && Checking(next) && PriorBacked(past, h, next)
    ensures Backed(past, h, s.(pc := next))
  {
    hide Saw, SawFree, PriorBacked;
  }

  /** Where an old listener is looked at, the address asked for has nothing to answer for yet. */
  predicate Onwards(pc: Pc, next: Pc) {
    HasPrior(pc) && HasPrior(next) && next.prior == pc.prior && !CheckingSession(next)
    && !next.FinalProbeAfter? && !next.WriteAfter?
  }

  lemma ListenerDecisionMoves(w: World, s: Helper, o: Oracle)
    requires s.self.Known? && Checking(s.pc) && !CheckingSession(s.pc)
    ensures var move := DecideOldListener(w, s, o);
            move.Go? ==>
              Onwards(s.pc, move.pc)
              && (!Checking(move.pc) || move.pc.OldProbe? || move.pc.OldOwner? || move.pc.OldLive? || move.pc.OldGoneProbe?)
              && (move.pc.OldProbe? || move.pc.OldOwner? <==> s.pc.OldListener?)
  {
    hide FindListener, BindRefused;
  }

  lemma OldListenerSees(past: seq<Moment>, w: World, h: Identity, s: Helper, o: Oracle)
    requires |past| > 0 && past[|past| - 1] == Moment(w, Advance(h, o)) && s.self.Known? && s.pc.OldListener?
    requires Running(w, h) && w.helpers[h] == s
    ensures var move := DecideOldListener(w, s, o);
            && (move == Go(OldProbe(s.pc.prior)) ==> Saw(past, h, Listing(s.pc.prior.claim.host, s.pc.prior.claim.port, NoListener)))
            && (move.Go? && move.pc.OldOwner? ==> SawOldRow(past, h, s.pc.prior, move.pc.row))
  {
    var c := s.pc.prior.claim;
    hide Saw, FindListener;
    Looking(past, w, h, o, Listing(c.host, c.port, FindListener(w, c.host, c.port)));
  }

  lemma OldProbeSees(past: seq<Moment>, w: World, h: Identity, s: Helper, o: Oracle)
    requires |past| > 0 && past[|past| - 1] == Moment(w, Advance(h, o)) && s.self.Known? && s.pc.OldProbe?
    requires Running(w, h) && w.helpers[h] == s
    requires Saw(past, h, Listing(s.pc.prior.claim.host, s.pc.prior.claim.port, NoListener)) && DecideOldListener(w, s, o).Go?
    ensures Vouched(past, h, s.pc.prior)
  {
    hide Saw, FindListener;
    Looking(past, w, h, o, Probe(s.pc.prior.claim.host, s.pc.prior.claim.port));
  }

  lemma OldOwnerSees(past: seq<Moment>, w: World, h: Identity, s: Helper, o: Oracle)
    requires |past| > 0 && past[|past| - 1] == Moment(w, Advance(h, o)) && s.self.Known? && s.pc.OldOwner?
    requires Running(w, h) && w.helpers[h] == s
    requires SawOldRow(past, h, s.pc.prior, s.pc.row) && DecideOldListener(w, s, o).Go?
    ensures Vouched(past, h, s.pc.prior)
  {
    var r, row := s.pc.prior, s.pc.row;
    hide Saw, SawOldRow;
    Looking(past, w, h, o, Descriptors(r.session.pid, row.inode, OwnedBy(w, r.session.pid, row.inode)));
    assert VouchedRow(past, h, r, row);
  }

  lemma ListenerDecisionSees(past: seq<Moment>, w: World, h: Identity, s: Helper, o: Oracle)
    requires |past| > 0 && past[|past| - 1] == Moment(w, Advance(h, o)) && s.self.Known?
    requires Running(w, h) && w.helpers[h] == s
    requires PriorBacked(past, h, s.pc) && Checking(s.pc) && !CheckingSession(s.pc)
    ensures var move := DecideOldListener(w, s, o); move.Go? ==> PriorBacked(past, h, move.pc)
  {
    ListenerDecisionMoves(w, s, o);
    if DecideOldListener(w, s, o).Go? {
      if s.pc.OldListener? {
        OldListenerSees(past, w, h, s, o);
      } else if s.pc.OldProbe? {
        OldProbeSees(past, w, h, s, o);
      } else if s.pc.OldOwner? {
        OldOwnerSees(past, w, h, s, o);
      }
    }
    hide DecideOldListener, Saw, SawFree, SawTransport, SawHiddenTransport, Vouched, SessionChecked, SawOldRow;
  }

  lemma ListenerDecisionBacked(past: seq<Moment>, w: World, h: Identity, s: Helper, o: Oracle)
    requires |past| > 0 && past[|past| - 1] == Moment(w, Advance(h, o)) && s.self.Known?
    requires Running(w, h) && w.helpers[h] == s
    requires Backed(past, h, s) && Checking(s.pc) && !CheckingSession(s.pc)
    ensures var move := DecideOldListener(w, s, o); move.Go? ==> Backed(past, h, s.(pc := move.pc))
  {
    hide Backed, DecideOldListener, Saw, SawFree, PriorBacked, Onwards;
    BackedPrior(past, h, s);
    ListenerDecisionMoves(w, s, o);
    ListenerDecisionSees(past, w, h, s, o);
    var move := DecideOldListener(w, s, o);
    if move.Go? {
      OnwardsBacked(past, h, s, move.pc);
    }
  }

  lemma BackedPrior(past: seq<Moment>, h: Identity, s: Helper)
    requires Backed(past, h, s)
    ensures PriorBacked(past, h, s.pc)
  {
    hide Saw, SawFree, PriorBacked;
  }

  lemma OnwardsBacked(past: seq<Moment>, h: Identity, s: Helper, next: Pc)
    requires Backed(past, h, s) && Onwards(s.pc, next) && PriorBacked(past, h, next)
    ensures Backed(past, h, s.(pc := next))
  {
    hide Saw, SawFree, PriorBacked;
  }

  lemma AddressDecisionMoves(w: World, s: Helper, o: Oracle)
    requires AddressChecking(s.pc)
    ensures var move := DecideAddress(w, s.claim, s.pc, o);
            move.Go? ==>
              && StepsOn(s.pc, move.pc)
              && (move.pc.FinalProbeFresh? || move.pc.FinalProbeAfter? ==> s.pc.FinalCheckFresh? || s.pc.FinalCheckAfter?)
              && (move.pc.WriteFresh? || move.pc.WriteAfter? ==> s.pc.FinalProbeFresh? || s.pc.FinalProbeAfter?)
  {
    hide FindListener, BindRefused;
  }

  lemma AddressDecisionSees(past: seq<Moment>, w: World, h: Identity, s: Helper, o: Oracle)
    requires |past| > 0 && past[|past| - 1] == Moment(w, Advance(h, o)) && Backed(past, h, s)
    requires Running(w, h) && w.helpers[h] == s
    requires AddressChecking(s.pc)
    ensures var move := DecideAddress(w, s.claim, s.pc, o);
            move.Go? ==>
              && (s.pc.FinalCheckFresh? || s.pc.FinalCheckAfter? ==> Unlisted(past, h, s.claim))
              && (s.pc.FinalProbeFresh? || s.pc.FinalProbeAfter? ==> SawFree(past, h, s.claim))
  {
    var c, move := s.claim, DecideAddress(w, s.claim, s.pc, o);
    hide Saw, FindListener, SelfBacked, PriorBacked, ConfirmBacked;
    if move.Go? {
      if s.pc.FinalCheckFresh? || s.pc.FinalCheckAfter? {
        Looking(past, w, h, o, Listing(c.host, c.port, FindListener(w, c.host, c.port)));
      } else if s.pc.FinalProbeFresh? || s.pc.FinalProbeAfter? {
        Looking(past, w, h, o, Probe(c.host, c.port));
      }
    }
  }

  lemma AddressDecisionBacked(past: seq<Moment>, w: World, h: Identity, s: Helper, o: Oracle)
    requires |past| > 0 && past[|past| - 1] == Moment(w, Advance(h, o)) && Backed(past, h, s)
    requires Running(w, h) && w.helpers[h] == s
    requires AddressChecking(s.pc)
    ensures var move := DecideAddress(w, s.claim, s.pc, o); move.Go? ==> Backed(past, h, s.(pc := move.pc))
  {
    AddressDecisionMoves(w, s, o);
    AddressDecisionSees(past, w, h, s, o);
    hide DecideAddress, Saw, SawFree, Unlisted, SawTransport, Vouched, SessionChecked, SawOldRow;
  }

  lemma PinDecisionBacked(past: seq<Moment>, w: World, h: Identity, s: Helper, o: Oracle)
    requires Backed(past, h, s) && Pinning(s.pc)
    ensures var move := DecidePin(w, s.pc, o); move.Go? ==> Backed(past, h, s.(pc := move.pc))
  {
    hide Saw, SawFree, Unlisted, SawTransport, Vouched, SessionChecked, SawOldRow;
  }

  lemma ReadDecisionBacked(past: seq<Moment>, w: World, h: Identity, s: Helper, o: Oracle)
    requires Backed(past, h, s) && (s.pc.ClaimRead? || s.pc.ReleaseRead? || s.pc.ConfirmRead?)
    requires s.self.Known? || !s.pc.ConfirmRead?
    ensures s.pc.ClaimRead? ==>
              var move := DecideRead(w, s.claim, o); move.Go? ==> Backed(past, h, s.(pc := move.pc))
    ensures s.pc.ReleaseRead? ==>
              var move := Decide(w, s, o); move.Go? ==> Backed(past, h, s.(pc := move.pc))
    ensures s.pc.ConfirmRead? ==>
              var move := DecideConfirm(w, s, o); move.Go? ==> Backed(past, h, s.(pc := move.pc))
  {
    hide Saw, SawFree, Unlisted, HoldsLease;
  }

  lemma ConfirmDecisionSees(past: seq<Moment>, w: World, h: Identity, s: Helper, o: Oracle)
    requires |past| > 0 && past[|past| - 1] == Moment(w, Advance(h, o)) && s.self.Known?
    requires Running(w, h) && w.helpers[h] == s
    requires Backed(past, h, s) && Confirming(s.pc) && !s.pc.ConfirmRead?
    ensures var move := DecideConfirm(w, s, o);
            move.Go? ==>
              && SawSelf(past, h, s)
              && (move.pc.ConfirmOwner? ==>
                    SawListener(past, h, s.claim, SocketProof(move.pc.row.uid, move.pc.row.inode), s.self.session.uid))
              && (move.pc.ConfirmWrite? ==>
                    SawListener(past, h, s.claim, move.pc.proof, s.self.session.uid)
                    && SawHolder(past, h, KeyOf(s.claim), s.self.session.pid, move.pc.proof.inode, s.self.proof))
  {
    var move := DecideConfirm(w, s, o);
    hide Backed, Saw, SawFree, FindListener, SawListener, SawHolder;
    BackedConfirm(past, h, s);
    if move.Go? {
      if s.pc.ConfirmIdentity? {
        Looking(past, w, h, o, There(s.self.session));
      } else if s.pc.ConfirmListener? {
        ConfirmListenerSees(past, w, h, s, o);
      } else if s.pc.ConfirmOwner? {
        ConfirmOwnerSees(past, w, h, s, o);
      }
    }
  }

  lemma BackedConfirm(past: seq<Moment>, h: Identity, s: Helper)
    requires Backed(past, h, s)
    ensures ConfirmBacked(past, h, s)
  {
    hide Saw, SawFree, ConfirmBacked;
  }

  lemma ConfirmListenerSees(past: seq<Moment>, w: World, h: Identity, s: Helper, o: Oracle)
    requires |past| > 0 && past[|past| - 1] == Moment(w, Advance(h, o)) && s.self.Known? && s.pc.ConfirmListener?
    requires Running(w, h) && w.helpers[h] == s
    ensures var move := DecideConfirm(w, s, o);
            move.Go? ==>
              move.pc.ConfirmOwner?
              && SawListener(past, h, s.claim, SocketProof(move.pc.row.uid, move.pc.row.inode), s.self.session.uid)
  {
    hide Saw, FindListener;
    var move := DecideConfirm(w, s, o);
    Looking(past, w, h, o, Listing(s.claim.host, s.claim.port, FindListener(w, s.claim.host, s.claim.port)));
    if move.Go? {
      assert OwnRow(move.pc.row, s.claim, SocketProof(move.pc.row.uid, move.pc.row.inode), s.self.session.uid);
    }
  }

  lemma ConfirmOwnerSees(past: seq<Moment>, w: World, h: Identity, s: Helper, o: Oracle)
    requires |past| > 0 && past[|past| - 1] == Moment(w, Advance(h, o)) && s.self.Known? && s.pc.ConfirmOwner?
    requires Running(w, h) && w.helpers[h] == s
    ensures var move := DecideConfirm(w, s, o);
            move.Go? ==>
              move.pc == ConfirmWrite(SocketProof(s.pc.row.uid, s.pc.row.inode))
              && SawHolder(past, h, KeyOf(s.claim), s.self.session.pid, s.pc.row.inode, s.self.proof)
  {
    hide Saw;
    var owner := OwnedBy(w, s.self.session.pid, s.pc.row.inode);
    Looking(past, w, h, o, Descriptors(s.self.session.pid, s.pc.row.inode, owner));
    if owner.Denied? && DecideConfirm(w, s, o).Go? {
      Looking(past, w, h, o, Standing(KeyOf(s.claim), s.self.proof));
    }
  }

  lemma ConfirmDecisionMoves(w: World, s: Helper, o: Oracle)
    requires s.self.Known? && Confirming(s.pc) && !s.pc.ConfirmRead?
    ensures var move := DecideConfirm(w, s, o);
            move.Go? ==> move.pc.ConfirmTransport? || move.pc.ConfirmListener? || move.pc.ConfirmOwner? || move.pc.ConfirmWrite?
  {
    hide FindListener;
  }

  lemma ConfirmDecisionBacked(past: seq<Moment>, w: World, h: Identity, s: Helper, o: Oracle)
    requires |past| > 0 && past[|past| - 1] == Moment(w, Advance(h, o)) && s.self.Known?
    requires Running(w, h) && w.helpers[h] == s
    requires Backed(past, h, s) && Confirming(s.pc) && !s.pc.ConfirmRead?
    ensures var move := DecideConfirm(w, s, o); move.Go? ==> Backed(past, h, s.(pc := move.pc))
  {
    hide Backed, DecideConfirm, Saw, SawFree, SawListener, SawHolder, ClaimBacked, PriorBacked;
    ConfirmDecisionSees(past, w, h, s, o);
    ConfirmDecisionMoves(w, s, o);
    var move := DecideConfirm(w, s, o);
    if move.Go? {
      ConfirmKeepsClaim(past, h, s, move.pc);
      RepositionBacked(past, h, s, move.pc);
    }
  }

  lemma ConfirmKeepsClaim(past: seq<Moment>, h: Identity, s: Helper, next: Pc)
    requires Backed(past, h, s)
    requires next.ConfirmTransport? || next.ConfirmListener? || next.ConfirmOwner? || next.ConfirmWrite?
    ensures ClaimBacked(past, h, s.(pc := next)) && PriorBacked(past, h, next)
  {
    hide Saw, SawFree, SawListener, SawHolder, SawSelf, SelfBacked, ConfirmBacked;
  }

  predicate AddressChecking(pc: Pc) {
    || pc.NewAddress? || pc.NewProbe? || pc.GoneCheck? || pc.GoneProbe? || pc.FinalCheckFresh?
    || pc.FinalProbeFresh? || pc.FinalCheckAfter? || pc.FinalProbeAfter?
  }

  lemma DecisionBacked(past: seq<Moment>, w: World, h: Identity, o: Oracle)
    requires |past| > 0 && past[|past| - 1] == Moment(w, Advance(h, o)) && h in w.helpers && Inv(w)
    requires Running(w, h)
    requires Backed(past, h, w.helpers[h]) && Deciding(w.helpers[h].pc)
    ensures var move := Decide(w, w.helpers[h], o); move.Go? ==> Backed(past, h, w.helpers[h].(pc := move.pc))
  {
    var s := w.helpers[h];
    assert HelperOk(w, h, s);
    assert CheckingSession(s.pc) ==> s.pc.prior.session in w.born;
    hide Inv, HelperOk, Backed, DecideRead, DecideOldSession, DecideOldListener, DecidePin, DecideAddress, DecideConfirm;
    if s.pc.ReleaseRead? {
      ReadDecisionBacked(past, w, h, s, o);
    } else if s.self.Unknown? {
    } else if s.pc.ConfirmRead? || s.pc.ClaimRead? {
      ReadDecisionBacked(past, w, h, s, o);
    } else if Confirming(s.pc) {
      ConfirmDecisionBacked(past, w, h, s, o);
    } else if CheckingSession(s.pc) {
      SessionDecisionBacked(past, w, h, s, o);
    } else if Checking(s.pc) {
      ListenerDecisionBacked(past, w, h, s, o);
    } else if Pinning(s.pc) {
      PinDecisionBacked(past, w, h, s, o);
    } else {
      AddressDecisionBacked(past, w, h, s, o);
    }
  }

  // ---------- one effect ----------

  /** What one step may add to the ledgers is backed by what has been seen. */
  ghost predicate Extends(past: seq<Moment>, w: World, w': World) {
    && (w'.history == w.history || exists r :: w'.history == w.history + [r] && RecordBacked(past, r))
    && (w'.signals == w.signals || exists s :: w'.signals == w.signals + [s] && SignalBacked(past, w.history, s))
  }

  /** Positions that presuppose nothing. */
  predicate Plain(pc: Pc) {
    pc.Idle? || pc.Exited? || pc.ClaimSession? || Locking(pc) || pc.ClaimRead? || pc.ConfirmRead? || pc.ReleaseRead?
  }

  lemma PlainBacked(past: seq<Moment>, h: Identity, s: Helper, s': Helper)
    requires Backed(past, h, s) && Plain(s'.pc) && s'.claim == s.claim && s'.transport == s.transport
    requires (s'.self == s.self || s'.self.Unknown?) && (s'.claimed ==> SawFree(past, h, s.claim))
    ensures Backed(past, h, s')
  {
    hide SawFree, Saw;
  }

  lemma WrittenRecordBacked(past: seq<Moment>, w: World, h: Identity)
    requires h in w.helpers && HelperOk(w, h, w.helpers[h]) && Backed(past, h, w.helpers[h]) && Writing(w.helpers[h].pc)
    ensures var s := w.helpers[h];
            SawFree(past, h, s.claim) && (s.self.Known? ==> RecordBacked(past, MakeRecord(s, h, WritePhase(s.pc))))
  {
    hide Saw, SawFree, SawListener, SawHolder, SawTransport, Vouched;
  }

  lemma CommitEffects(w: World, h: Identity, o: Oracle)
    requires h in w.helpers && Writing(w.helpers[h].pc) && w.helpers[h].self.Known?
    ensures var s, w' := w.helpers[h], Effect(w, h, o);
            && h in w'.helpers && w'.helpers[h].pc.Idle?
            && w'.helpers[h].claim == s.claim && w'.helpers[h].transport == s.transport && w'.helpers[h].self == s.self
            && w'.signals == w.signals
            && (w'.history == w.history || w'.history == w.history + [MakeRecord(s, h, WritePhase(s.pc))])
  {
    hide MakeRecord, Lock, Unlink, SendSignal, Search, Commit;
    var s := w.helpers[h];
    CommitDetails(w, h, MakeRecord(s, h, WritePhase(s.pc)), o, WriteReply(s.pc));
  }

  lemma CommitDetails(w: World, h: Identity, r: Record, o: Oracle, ok: Reply)
    requires h in w.helpers
    ensures var s, w' := w.helpers[h], Commit(w, h, r, o, ok);
            && h in w'.helpers && w'.helpers[h].pc.Idle?
            && w'.helpers[h].claim == s.claim && w'.helpers[h].transport == s.transport && w'.helpers[h].self == s.self
            && w'.signals == w.signals
            && (w'.history == w.history || w'.history == w.history + [r])
  {
  }

  lemma CommitBacked(past: seq<Moment>, w: World, h: Identity, o: Oracle)
    requires h in w.helpers && HelperOk(w, h, w.helpers[h]) && Backed(past, h, w.helpers[h])
    requires Writing(w.helpers[h].pc) && w.helpers[h].self.Known?
    ensures var w' := Effect(w, h, o); h in w'.helpers && Backed(past, h, w'.helpers[h]) && Extends(past, w, w')
  {
    var s := w.helpers[h];
    WrittenRecordBacked(past, w, h);
    CommitEffects(w, h, o);
    hide HelperOk, Backed, SawFree, RecordBacked, Effect, MakeRecord;
    PlainBacked(past, h, s, Effect(w, h, o).helpers[h]);
  }

  lemma SendSignalBacked(past: seq<Moment>, w: World, h: Identity, o: Oracle)
    requires h in w.helpers && w.helpers[h].pc.PinSignal? && Backed(past, h, w.helpers[h])
    requires forall s :: SignalSent(w, h, s) ==> SignalBacked(past, w.history, s)
    ensures var w' := Effect(w, h, o); h in w'.helpers && Backed(past, h, w'.helpers[h]) && Extends(past, w, w')
  {
    hide SawFree, SawListener, SawHolder, SawTransport, Vouched, Saw, SignalBacked;
    var s, w' := w.helpers[h], Effect(w, h, o);
    if !o.signalFails && Present(w, s.pc.target) && s.self.Known? {
      assert SignalSent(w, h, Signal(h, s.self.session, KeyOf(s.claim), s.claim.generation, s.pc.target, s.pc.kill));
    }
  }

  /** The signal this helper is about to deliver. */
  predicate SignalSent(w: World, h: Identity, signal: Signal)
    requires h in w.helpers && w.helpers[h].pc.PinSignal?
  {
    var s := w.helpers[h];
    Present(w, s.pc.target) && s.self.Known?
    && signal == Signal(h, s.self.session, KeyOf(s.claim), s.claim.generation, s.pc.target, s.pc.kill)
  }

  lemma PinnedIsRecorded(w: World, h: Identity)
    requires h in w.helpers && Inv(w) && w.helpers[h].pc.PinSignal?
    ensures var s := w.helpers[h];
            && s.pc.prior in w.history && KeyOf(s.pc.prior.claim) == KeyOf(s.claim)
            && s.pc.target == s.pc.prior.session && s.pc.prior.claim.generation < s.claim.generation
  {
    assert HelperOk(w, h, w.helpers[h]) && RecordsOk(w);
  }

  lemma SentSignalIsBacked(past: seq<Moment>, w: World, h: Identity, signal: Signal)
    requires h in w.helpers && Inv(w) && Backed(past, h, w.helpers[h])
    requires (forall i :: 0 <= i < |past| ==> Aged(past[i].world, w))
    requires w.helpers[h].pc.PinSignal? && SignalSent(w, h, signal)
    ensures SignalBacked(past, w.history, signal)
  {
    hide Inv, Backed;
    var s := w.helpers[h];
    var prior := s.pc.prior;
    PinnedIsRecorded(w, h);
    PinnedIsBacked(past, h, s);
    hide Vouched, SawTransport, Saw;
    NotGone(past, w, h, prior.session);
    assert Verified(past, w.history, signal, prior);
  }

  lemma PinnedIsBacked(past: seq<Moment>, h: Identity, s: Helper)
    requires Backed(past, h, s) && s.pc.PinSignal?
    ensures SessionChecked(past, h, s.pc.prior) && Vouched(past, h, s.pc.prior)
  {
    hide Saw, SawFree, SawTransport, Vouched, SelfBacked, ClaimBacked, ConfirmBacked;
  }

  /** Who is still there has never been found gone. */
  lemma NotGone(past: seq<Moment>, w: World, h: Identity, id: Identity)
    requires Present(w, id) && forall i :: 0 <= i < |past| ==> Aged(past[i].world, w)
    ensures !Saw(past, h, Gone(id))
  {
    forall i | 0 <= i < |past| ensures !Sees(past[i], h, Gone(id)) {
      assert Aged(past[i].world, w);
    }
  }

  /** The search for the own session adds what it has found. */
  lemma SearchBacked(past: seq<Moment>, w: World, h: Identity, o: Oracle)
    requires |past| > 0 && past[|past| - 1] == Moment(w, Advance(h, o)) && h in w.helpers
    requires Running(w, h)
    requires Backed(past, h, w.helpers[h]) && Searching(w.helpers[h].pc) && !w.helpers[h].claimed
    ensures Backed(past, h, Search(w, h))
  {
    hide Saw, SawFree, OwnSession;
    var s := w.helpers[h];
    if s.pc.ClaimSession? && OwnSession(w, h, s.transport).Ancestor? {
      Looking(past, w, h, o, OwnAncestor(s.transport, OwnSession(w, h, s.transport).id));
    } else if s.pc.ClaimTransport? && Connected(w, s.transport) {
      Looking(past, w, h, o, Connection(s.transport, w.connections[s.transport]));
    }
  }

  lemma EffectBacked(past: seq<Moment>, w: World, h: Identity, o: Oracle)
    requires |past| > 0 && past[|past| - 1] == Moment(w, Advance(h, o)) && h in w.helpers && Inv(w)
    requires Running(w, h)
    requires AllBacked(past, w) && (forall i :: 0 <= i < |past| ==> Aged(past[i].world, w))
    requires !Deciding(w.helpers[h].pc)
    ensures var w' := Effect(w, h, o); h in w'.helpers && Backed(past, h, w'.helpers[h]) && Extends(past, w, w')
  {
    var s := w.helpers[h];
    assert Backed(past, h, s) && HelperOk(w, h, s);
    assert Searching(s.pc) ==> !s.claimed;
    hide Backed, HelperOk, SignalBacked, Inv, Effect, Extends;
    if s.pc.PinSignal? {
      forall signal | SignalSent(w, h, signal) ensures SignalBacked(past, w.history, signal) {
        SentSignalIsBacked(past, w, h, signal);
      }
      SendSignalBacked(past, w, h, o);
    } else if Writing(s.pc) && s.self.Known? {
      CommitBacked(past, w, h, o);
    } else if Searching(s.pc) {
      SearchBacked(past, w, h, o);
      SearchEffectBacked(past, w, h, o);
    } else {
      QuietEffectBacked(past, w, h, o);
    }
  }

  lemma SearchEffectBacked(past: seq<Moment>, w: World, h: Identity, o: Oracle)
    requires h in w.helpers && Searching(w.helpers[h].pc) && Backed(past, h, Search(w, h))
    ensures var w' := Effect(w, h, o); h in w'.helpers && Backed(past, h, w'.helpers[h]) && Extends(past, w, w')
  {
    hide Backed, Search;
  }

  lemma QuietEffectBacked(past: seq<Moment>, w: World, h: Identity, o: Oracle)
    requires h in w.helpers && Backed(past, h, w.helpers[h]) && !Deciding(w.helpers[h].pc) && !w.helpers[h].pc.PinSignal?
    requires !Writing(w.helpers[h].pc) || w.helpers[h].self.Unknown?
    requires !Searching(w.helpers[h].pc)
    ensures var w' := Effect(w, h, o); h in w'.helpers && Backed(past, h, w'.helpers[h]) && Extends(past, w, w')
  {
    var s := w.helpers[h];
    assert s.claimed ==> SawFree(past, h, s.claim);
    QuietEffectTouches(w, h, o);
    hide Effect, Backed, SawFree, RecordBacked, SignalBacked;
    var w' := Effect(w, h, o);
    if w'.helpers[h] != s {
      PlainBacked(past, h, s, w'.helpers[h]);
    }
  }

  /** The helper stays where it is or goes to a plain position; the ledgers stay. */
  ghost predicate TouchesPlainly(w: World, w': World, h: Identity)
    requires h in w.helpers
  {
    var s := w.helpers[h];
    && h in w'.helpers && w'.history == w.history && w'.signals == w.signals
    && (w'.helpers[h] == s || (Plain(w'.helpers[h].pc) && SameClaim(s, w'.helpers[h])))
  }

  predicate SameClaim(s: Helper, s': Helper) {
    s'.claim == s.claim && s'.claimed == s.claimed && s'.transport == s.transport && s'.self == s.self
  }

  lemma LockTouchesPlainly(w: World, h: Identity, pc: Pc, o: Oracle)
    requires h in w.helpers && Plain(pc)
    ensures TouchesPlainly(w, Lock(w, h, pc, o), h)
  {
  }

  lemma UnlinkTouchesPlainly(w: World, h: Identity, o: Oracle)
    requires h in w.helpers
    ensures TouchesPlainly(w, Unlink(w, h, o), h)
  {
  }

  lemma QuietEffectTouches(w: World, h: Identity, o: Oracle)
    requires h in w.helpers && !Deciding(w.helpers[h].pc) && !w.helpers[h].pc.PinSignal?
    requires !Writing(w.helpers[h].pc) || w.helpers[h].self.Unknown?
    requires !Searching(w.helpers[h].pc)
    ensures TouchesPlainly(w, Effect(w, h, o), h)
  {
    hide Lock, Unlink, TouchesPlainly;
    var pc := w.helpers[h].pc;
    if Locking(pc) {
      LockTouchesPlainly(w, h, AfterLock(pc), o);
    } else if pc.ReleaseUnlink? {
      UnlinkTouchesPlainly(w, h, o);
    } else {
      StayTouchesPlainly(w, h);
    }
  }

  lemma StayTouchesPlainly(w: World, h: Identity)
    requires h in w.helpers
    ensures TouchesPlainly(w, w, h)
  {
  }

  lemma AdvanceBacked(past: seq<Moment>, w: World, h: Identity, o: Oracle)
    requires |past| > 0 && past[|past| - 1] == Moment(w, Advance(h, o)) && h in w.helpers && Inv(w)
    requires Running(w, h)
    requires AllBacked(past, w) && (forall i :: 0 <= i < |past| ==> Aged(past[i].world, w))
    ensures var w' := HelperStep(w, h, o); h in w'.helpers && Backed(past, h, w'.helpers[h]) && Extends(past, w, w')
  {
    if Deciding(w.helpers[h].pc) {
      assert Backed(past, h, w.helpers[h]);
      DecisionBacked(past, w, h, o);
      hide Inv, Evidence, Decide, SawFree, SawListener, SawHolder, SawTransport, Vouched, Saw;
      PerformBacked(past, w, h, Decide(w, w.helpers[h], o));
    } else {
      EffectBacked(past, w, h, o);
    }
  }

  lemma PerformBacked(past: seq<Moment>, w: World, h: Identity, move: Move)
    requires h in w.helpers && Backed(past, h, w.helpers[h]) && (move.Go? ==> Backed(past, h, w.helpers[h].(pc := move.pc)))
    ensures var w' := Perform(w, h, move); h in w'.helpers && Backed(past, h, w'.helpers[h]) && Extends(past, w, w')
  {
    hide SawFree, SawListener, SawHolder, SawTransport, Vouched, Saw;
  }

  // ---------- one action ----------

  lemma StillAged(w: World, w': World)
    requires w'.procs == w.procs && w'.born == w.born
    ensures Aged(w, w')
  {
  }

  lemma OthersBacked(past: seq<Moment>, w: World, w': World, h: Identity)
    requires h in w.helpers && AllBacked(past, w) && LeaseTheorems.TouchesOnly(w, w', h) && Backed(past, h, w'.helpers[h])
    ensures AllBacked(past, w')
  {
    hide Backed;
    forall g | g in w'.helpers ensures Backed(past, g, w'.helpers[g]) {
      if g != h { assert w'.helpers[g] == w.helpers[g]; }
    }
  }

  lemma AdvanceActionBacked(past: seq<Moment>, w: World, h: Identity, o: Oracle)
    requires |past| > 0 && past[|past| - 1] == Moment(w, Advance(h, o)) && h in w.helpers && Inv(w)
    requires Running(w, h)
    requires AllBacked(past, w) && (forall i :: 0 <= i < |past| ==> Aged(past[i].world, w))
    ensures var w' := HelperStep(w, h, o); AllBacked(past, w') && Extends(past, w, w') && Aged(w, w')
  {
    hide Inv, AllBacked, HelperStep, Backed, Extends, Aged, Running;
    AdvanceBacked(past, w, h, o);
    AdvanceTouches(w, h, o);
    OthersBacked(past, w, HelperStep(w, h, o), h);
    StillAged(w, HelperStep(w, h, o));
  }

  lemma AdvanceTouches(w: World, h: Identity, o: Oracle)
    requires h in w.helpers
    ensures LeaseTheorems.TouchesOnly(w, HelperStep(w, h, o), h) && HelperStep(w, h, o).born == w.born
  {
    if Deciding(w.helpers[h].pc) {
      LeaseTheorems.PerformTouches(w, h, Decide(w, w.helpers[h], o));
      hide Decide;
    } else {
      LeaseTheorems.EffectTouches(w, h, o);
      EffectKeepsBorn(w, h, o);
    }
  }

  lemma LockKeepsBorn(w: World, h: Identity, pc: Pc, o: Oracle)
    requires h in w.helpers
    ensures Lock(w, h, pc, o).born == w.born
  {
  }

  lemma CommitKeepsBorn(w: World, h: Identity, r: Record, o: Oracle, ok: Reply)
    requires h in w.helpers
    ensures Commit(w, h, r, o, ok).born == w.born
  {
  }

  lemma UnlinkAndSignalKeepBorn(w: World, h: Identity, o: Oracle)
    requires h in w.helpers
    ensures Unlink(w, h, o).born == w.born
    ensures w.helpers[h].pc.PinSignal? ==> SendSignal(w, h, o).born == w.born
  {
  }

  lemma EffectKeepsBorn(w: World, h: Identity, o: Oracle)
    requires h in w.helpers
    ensures Effect(w, h, o).born == w.born
  {
    hide Lock, Unlink, Commit, SendSignal;
    var s := w.helpers[h];
    if Locking(s.pc) {
      LockKeepsBorn(w, h, AfterLock(s.pc), o);
    } else {
      UnlinkAndSignalKeepBorn(w, h, o);
      if s.self.Known? {
        CommitKeepsBorn(w, h, MakeRecord(s, h, WritePhase(s.pc)), o, WriteReply(s.pc));
      }
    }
  }

  lemma ExitTouches(w: World, pid: nat)
    requires ProcsOk(w) && pid in w.procs && !w.procs[pid].zombie
    ensures var id, w' := w.procs[pid].id, ExitProcess(w, pid);
            && Aged(w, w') && w'.history == w.history && w'.signals == w.signals
            && w'.helpers == if id in w.helpers then w.helpers[id := w.helpers[id].(pc := Exited)] else w.helpers
  {
    ExitAges(w, pid);
    hide ProcsOk;
  }

  lemma ExitActionBacked(past: seq<Moment>, w: World, pid: nat)
    requires ProcsOk(w) && AllBacked(past, w)
    ensures var w' := ExitProcess(w, pid); AllBacked(past, w') && Extends(past, w, w') && Aged(w, w')
  {
    hide Backed, RecordBacked, SignalBacked;
    if pid in w.procs && !w.procs[pid].zombie {
      ExitTouches(w, pid);
      hide ExitProcess, ProcsOk, Aged;
      var id, w' := w.procs[pid].id, ExitProcess(w, pid);
      if id in w.helpers {
        ExitedIsBacked(past, id, w.helpers[id]);
      }
      forall g | g in w'.helpers ensures Backed(past, g, w'.helpers[g]) {
        if g != id { assert w'.helpers[g] == w.helpers[g]; }
      }
    }
  }

  lemma ExitedIsBacked(past: seq<Moment>, h: Identity, s: Helper)
    requires Backed(past, h, s)
    ensures Backed(past, h, s.(pc := Exited))
  {
    assert s.claimed ==> SawFree(past, h, s.claim);
    PlainBacked(past, h, s, s.(pc := Exited));
  }

  lemma RequestActionBacked(past: seq<Moment>, w: World, h: Identity, command: Command)
    requires AllBacked(past, w) && h in w.helpers && w.helpers[h].pc.Idle?
    ensures var w' := Receive(w, h, command); AllBacked(past, w') && Extends(past, w, w') && Aged(w, w')
  {
    assert Backed(past, h, w.helpers[h]);
    assert w.helpers[h].claimed ==> SawFree(past, h, w.helpers[h].claim);
    hide Backed, SawFree;
    PlainBacked(past, h, w.helpers[h], Accept(w, h, command));
  }

  lemma StartActionBacked(past: seq<Moment>, w: World, h: Identity, slot: nat, t: Transport)
    requires AllBacked(past, w)
    ensures var w' := Start(w, h, slot, t); AllBacked(past, w') && Extends(past, w, w') && Aged(w, w')
  {
    hide SawFree, SawListener, SawHolder, SawTransport, Vouched, Saw;
  }

  lemma SameHelpersBacked(past: seq<Moment>, w: World, w': World)
    requires AllBacked(past, w) && w'.helpers == w.helpers && w'.history == w.history && w'.signals == w.signals
    ensures AllBacked(past, w') && Extends(past, w, w')
  {
    hide Backed, RecordBacked, SignalBacked;
  }

  lemma OtherActionsTouch(w: World, a: Action)
    requires a.Spawn? || a.Reap? || a.Sockets? || a.OpenManager? || a.Reserve? || a.Tamper?
    ensures var w' := Apply(w, a);
            && w'.helpers == w.helpers && w'.history == w.history && w'.signals == w.signals
            && (!a.Spawn? && !a.Reap? ==> w'.procs == w.procs && w'.born == w.born)
  {
    hide OpenFile, ReserveFile;
  }

  lemma OtherActionsBacked(past: seq<Moment>, w: World, a: Action)
    requires Inv(w) && AllBacked(past, w)
    requires (a.Spawn? || a.Reap? || a.Sockets? || a.OpenManager? || a.Reserve? || a.Tamper?)
    ensures var w' := Apply(w, a); AllBacked(past, w') && Extends(past, w, w') && Aged(w, w')
  {
    assert ProcsOk(w);
    OtherActionsTouch(w, a);
    hide Inv, AllBacked, Extends;
    if a.Spawn? {
      SpawnAges(w, a.id, a.parent);
    } else if a.Reap? {
      ReapAges(w, a.pid);
    } else {
      hide Apply;
      assert Aged(w, Apply(w, a));
    }
    hide Apply;
    SameHelpersBacked(past, w, Apply(w, a));
  }

  lemma ActionBacked(past: seq<Moment>, w: World, a: Action)
    requires |past| > 0 && past[|past| - 1] == Moment(w, a) && Inv(w)
    requires AllBacked(past, w) && (forall i :: 0 <= i < |past| ==> Aged(past[i].world, w))
    ensures var w' := Apply(w, a); AllBacked(past, w') && Extends(past, w, w') && Aged(w, w')
  {
    assert ProcsOk(w);
    hide Inv, ProcsOk, HelperStep, Receive, Start, ExitProcess;
    if a.Advance? {
      if Running(w, a.helper) { AdvanceActionBacked(past, w, a.helper, a.oracle); }
    } else if a.Exit? {
      ExitActionBacked(past, w, a.pid);
    } else if a.Request? {
      if Running(w, a.helper) && w.helpers[a.helper].pc.Idle? { RequestActionBacked(past, w, a.helper, a.command); }
    } else if a.StartHelper? {
      StartActionBacked(past, w, a.helper, a.slot, a.transport);
    } else {
      OtherActionsBacked(past, w, a);
    }
  }

  /** The moment of an action is part of what its helper has seen. */
  lemma MomentBacks(past: seq<Moment>, w: World, a: Action)
    requires Evidence(past, w)
    ensures Evidence(past + [Moment(w, a)], w)
  {
    var more := past + [Moment(w, a)];
    SightsStay(past, Moment(w, a));
    hide Backed, RecordBacked, SignalBacked, Remembered;
    forall h | h in w.helpers ensures Backed(more, h, w.helpers[h]) {
      BackedStays(past, more, h, w.helpers[h]);
    }
    forall i | 0 <= i < |w.history| ensures RecordBacked(more, w.history[i]) {
      RecordBackedStays(past, more, w.history[i]);
    }
    forall i | 0 <= i < |w.signals| ensures SignalBacked(more, w.history, w.signals[i]) {
      SignalBackedStays(past, more, w.history, w.history, w.signals[i]);
    }
  }

  lemma EvidenceGrows(past: seq<Moment>, w: World, w': World)
    requires Evidence(past, w) && AllBacked(past, w') && Extends(past, w, w') && Aged(w, w')
    ensures Evidence(past, w')
  {
    hide AllBacked, RecordBacked, Remembered;
    forall i | 0 <= i < |w'.signals| ensures SignalBacked(past, w'.history, w'.signals[i]) {
      var s := w'.signals[i];
      assert SignalBacked(past, w.history, s);
      var r :| Verified(past, w.history, s, r);
      assert r in w'.history;
      assert Verified(past, w'.history, s, r);
    }
    forall i | 0 <= i < |past| ensures Aged(past[i].world, w') {
      assert Aged(past[i].world, w);
    }
  }

  lemma {:induction false} RunHasEvidence(actions: seq<Action>)
    ensures Evidence(Moments(actions), Run(actions))
  {
    if actions == [] {
      assert Moments(actions) == [];
    } else {
      var front, a := actions[..|actions| - 1], actions[|actions| - 1];
      var w, past := Run(front), Moments(actions);
      RunHasEvidence(front);
      RunKeepsInvariant(front);
      MomentBacks(Moments(front), w, a);
      assert AllBacked(past, w) && forall i :: 0 <= i < |past| ==> Aged(past[i].world, w);
      hide Evidence, Inv, Apply, AllBacked, Extends;
      ActionBacked(past, w, a);
      EvidenceGrows(past, w, Run(actions));
    }
  }

  // ---------- theorems ----------

  /** Whatever is in a lease record got there only after its writer, in observations of its own, had
      found its session as the nearest fitting ancestor and the recorded connection, had seen the address
      listed without a single listener, and had probed it. A confirmed record names a socket that was
      seen listening at exactly the claimed address as the only one, for the session's user, held by
      the session or, its descriptors being hidden, on the strength of the recorded connection. */
  lemma RecordsAreBacked(actions: seq<Action>, r: Record)
    requires r in Run(actions).history
    ensures RecordBacked(Moments(actions), r)
  {
    RunHasEvidence(actions);
  }

  lemma ProbeIsBacked(past: seq<Moment>, r: Record)
    requires RecordBacked(past, r)
    ensures Saw(past, r.helper, Probe(r.claim.host, r.claim.port))
  {
    hide Saw, SawListener, SawHolder;
  }

  /** Unless one of its probes of that address failed for another reason than an occupied address, a claim
      was registered only after a moment when nothing at all listened there. */
  lemma UnlessProbesFailAddressesWereFree(actions: seq<Action>, r: Record)
    requires r in Run(actions).history
    requires forall k :: 0 <= k < |actions| && Takes(Moment(Run(actions[..k]), actions[k]), r.helper, Probe(r.claim.host, r.claim.port)) ==>
               !actions[k].oracle.bindError
    ensures exists k :: 0 <= k < |actions| && FindListener(Run(actions[..k]), r.claim.host, r.claim.port).NoListener?
  {
    hide Run, FindListener, RecordBacked, Moments, LooksAt;
    var past := Moments(actions);
    RecordsAreBacked(actions, r);
    MomentsAreSteps(actions);
    ProbeIsBacked(past, r);
    var k :| 0 <= k < |past| && Sees(past[k], r.helper, Probe(r.claim.host, r.claim.port));
    assert past[k] == Moment(Run(actions[..k]), actions[k]);
  }

  /** Nobody is terminated on the strength of a record alone: the signaller had seen the recorded
      connection, held by the target, or with descriptors hidden exactly the recorded one; and nothing
      listening at the recorded address, or a single listener of the target's user that the target
      held or hid, the recorded socket if the record was confirmed. */
  lemma SignalledSessionsWereVerified(actions: seq<Action>, i: nat)
    requires i < |Run(actions).signals|
    ensures var s := Run(actions).signals[i];
            exists r ::
              && r in Run(actions).history && KeyOf(r.claim) == s.key && r.session == s.target && r.claim.generation < s.generation
              && SawTransport(Moments(actions), s.sender, r) && Vouched(Moments(actions), s.sender, r)
  {
    RunHasEvidence(actions);
    var s := Run(actions).signals[i];
    assert SignalBacked(Moments(actions), Run(actions).history, s);
    hide Evidence, Run, SawTransport, Vouched;
    var r :| Verified(Moments(actions), Run(actions).history, s, r);
  }
}
