/** The remote side of verified recovery as deployed on Linux
    (crates/fwm-core/src/cleanup/native_helper.c), together with the managers that hand out
    its claims. Helpers run interleaved with each other and with the operating system, so the
    protocol is a state machine: one action per observation or effect that C performs, where the
    search through the ancestors, one pass over a socket table and one pass over the descriptors
    of a process count as one observation each. */
module LeaseWorld {
  import opened Basics
  import opened Recovery

  // ---------- the operating system ----------

  /** A process incarnation; `birth` is the boot id and start time. */
  datatype Identity = Identity(pid: nat, uid: nat, birth: string, name: string)
  datatype Process = Process(id: Identity, parent: nat, zombie: bool)
  datatype Transport = Transport(client: nat, clientPort: nat, server: nat, serverPort: nat)
  datatype SocketProof = SocketProof(uid: nat, inode: nat)
  datatype Listener = Listener(host: nat, port: nat, uid: nat, inode: nat)
  datatype Lookup = NoListener | One(row: Listener) | Ambiguous
  datatype Ancestor = NoAncestor | Ancestor(id: Identity)
  datatype Ownership = Owned | NotOwned | Denied

  // ---------- the registry ----------

  type Key = (string, string)
  datatype Phase = Claimed | Confirmed(listener: SocketProof)
  datatype Record = Record(
    claim: Claim, phase: Phase, session: Identity, helper: Identity,
    transport: Transport, sessionProof: SocketProof)

  // ---------- helpers ----------

  /** `NewAddressOccupied` is the "unmanaged_conflict" whose message speaks of the new listening address. */
  datatype Code =
    | InvalidRequest | OwnershipMismatch | PermissionDenied | UnmanagedConflict
    | NewAddressOccupied | ListenerMissing | Superseded | IoError
  datatype Reply = Pending | ClaimOk(reclaimed: bool) | ConfirmOk | ReleaseOk | Refused(code: Code)

  /** What a claim learned about its own connection before taking the lock. */
  datatype Self = Unknown | Known(session: Identity, proof: SocketProof)

  /** The program counter of one helper between two system calls. */
  datatype Pc =
    | Idle | Exited
    | ClaimSession | ClaimTransport(found: Identity)
    | ClaimLock | ClaimRead
    | OldIdentity(prior: Record) | OldTransport(prior: Record) | OldInode(prior: Record)
    | OldDescriptors(prior: Record, inode: nat) | OldProof(prior: Record)
    | OldListener(prior: Record) | OldProbe(prior: Record) | OldOwner(prior: Record, row: Listener)
    | OldLive(prior: Record, bound: bool) | OldGoneProbe(prior: Record)
    | NewAddress(prior: Record, live: bool) | NewProbe(prior: Record, live: bool)
    | GoneCheck(prior: Record) | GoneProbe(prior: Record)
    | PinOpen(prior: Record) | PinSetOwner(prior: Record) | PinRecheck(prior: Record, target: Identity)
    | PinSignal(prior: Record, target: Identity, kill: bool) | PinWait(prior: Record, target: Identity, kill: bool)
    | FinalCheckFresh | FinalProbeFresh
    | FinalCheckAfter(prior: Record, reclaimed: bool) | FinalProbeAfter(prior: Record, reclaimed: bool)
    | WriteFresh | WriteAfter(prior: Record, reclaimed: bool)
    | ConfirmLock | ConfirmRead | ConfirmIdentity | ConfirmTransport | ConfirmListener
    | ConfirmOwner(row: Listener) | ConfirmWrite(proof: SocketProof)
    | ReleaseLock | ReleaseRead | ReleaseUnlink

  datatype Helper = Helper(
    slot: nat,               // which issued claim this helper was started with
    claim: Claim,
    transport: Transport,    // its SSH_CONNECTION
    claimed: bool,
    self: Self,
    pc: Pc,
    reply: Reply,
    mark: nat)               // length of the signal log when the current request began

  /** A termination signal that was delivered to a live process. */
  datatype Signal = Signal(sender: Identity, session: Identity, key: Key, generation: nat, target: Identity, kill: bool)

  datatype World = World(
    procs: map<nat, Process>,
    born: set<Identity>,
    listeners: set<Listener>,
    connections: map<Transport, SocketProof>,
    fds: set<(nat, nat)>,
    hidden: set<nat>,
    records: map<Key, Record>,
    locks: map<Key, Identity>,
    helpers: map<Identity, Helper>,
    files: map<string, File>,
    owners: set<string>,
    issued: seq<Claim>,
    history: seq<Record>,
    released: set<Claim>,
    signals: seq<Signal>)

  datatype WriteOutcome = Written | NotWritten | WrittenButFailed

  /** Outcomes the environment chooses: permission problems, probe errors, timers, disk failures. */
  datatype Oracle = Oracle(
    lockFails: bool, unreadable: bool, bindDenied: bool, bindError: bool, signalFails: bool, timeout: bool, write: WriteOutcome)

  datatype Command =
    | ClaimCommand
    | ConfirmCommand(token: Claim, acknowledged: bool)
    | ReleaseCommand(token: Claim)

  datatype Action =
    | Spawn(id: Identity, parent: nat)
    | Exit(pid: nat)
    | Reap(pid: nat)
    | Sockets(listeners: set<Listener>, connections: map<Transport, SocketProof>, fds: set<(nat, nat)>, hidden: set<nat>)
    | OpenManager(directory: string, newOwner: string, save: Save)
    | Reserve(directory: string, owner: string, rule: string, session: string, host: nat, port: nat, save: Save)
    | Tamper(directory: string, remove: bool)
    | StartHelper(helper: Identity, slot: nat, transport: Transport)
    | Request(helper: Identity, command: Command)
    | Advance(helper: Identity, oracle: Oracle)

  // ---------- observations ----------

  function KeyOf(claim: Claim): Key { (claim.owner, claim.rule) }

  /** The process table still shows this incarnation, possibly as a zombie. */
  predicate Present(w: World, id: Identity) {
    id.pid in w.procs && w.procs[id.pid].id == id
  }

  predicate Dead(w: World, id: Identity) {
    !Present(w, id) || w.procs[id.pid].zombie
  }

  predicate SameToken(a: Claim, b: Claim) {
    a.owner == b.owner && a.rule == b.rule && a.generation == b.generation && a.session == b.session
  }

  predicate SshName(name: string) { name == "sshd" || name == "sshd-session" }

  /** `tcp_listener`: exactly one overlapping row with an inode, none, or an unusable answer. */
  ghost function FindListener(w: World, host: nat, port: nat): Lookup {
    var rows := set l | l in w.listeners && l.port == port && (l.host == host || l.host == 0 || host == 0);
    if rows == {} then NoListener
    else
      var row :| row in rows;
      if rows == {row} && row.inode != 0 then One(row) else Ambiguous
  }

  /** `port_free(...) == 0`; any other probe error is not treated as occupied. */
  ghost predicate BindRefused(w: World, host: nat, port: nat, o: Oracle) {
    !o.bindError && (o.bindDenied || FindListener(w, host, port) != NoListener)
  }

  function OwnedBy(w: World, pid: nat, inode: nat): Ownership {
    if inode == 0 || pid !in w.procs then NotOwned
    else if pid in w.hidden then Denied
    else if (pid, inode) in w.fds then Owned
    else NotOwned
  }

  /** An established connection row with a usable inode. */
  predicate Connected(w: World, t: Transport) {
    t in w.connections && w.connections[t].inode != 0
  }

  const ANCESTOR_LIMIT: nat := 32

  /** A process the search settles for: an sshd of this user that holds the connection or hides what
      it holds. */
  predicate Qualifies(w: World, pid: nat, uid: nat, inode: nat) {
    pid in w.procs && SshName(w.procs[pid].id.name) && w.procs[pid].id.uid == uid && OwnedBy(w, pid, inode) != NotOwned
  }

  /** `find_session`: up from parent to parent. */
  function FindSession(w: World, pid: nat, uid: nat, inode: nat, depth: nat): (found: Ancestor)
    ensures found.Ancestor? ==> exists p :: Qualifies(w, p, uid, inode) && w.procs[p].id == found.id
    decreases depth
  {
    if depth == 0 || pid <= 1 || pid !in w.procs then NoAncestor
    else if Qualifies(w, pid, uid, inode) then Ancestor(w.procs[pid].id)
    else if w.procs[pid].parent == pid then NoAncestor
    else FindSession(w, w.procs[pid].parent, uid, inode, depth - 1)
  }

  /** The process `n` parents up, as long as there are any. */
  function Climb(w: World, pid: nat, n: nat): nat
    decreases n
  {
    if n == 0 || pid !in w.procs then pid else Climb(w, w.procs[pid].parent, n - 1)
  }

  /** A chain of `n` parents that passes no missing process, no init and no process that is its own parent. */
  predicate Climbs(w: World, pid: nat, n: nat)
    decreases n
  {
    pid > 1 && pid in w.procs && (n > 0 ==> w.procs[pid].parent != pid && Climbs(w, w.procs[pid].parent, n - 1))
  }

  predicate QualifiesAbove(w: World, pid: nat, n: nat, uid: nat, inode: nat) {
    Climbs(w, pid, n) && Qualifies(w, Climb(w, pid, n), uid, inode)
  }

  /** The search finds the nearest ancestor within the depth limit that qualifies, whenever there is one. */
  lemma {:induction false} FindsNearest(w: World, pid: nat, uid: nat, inode: nat, depth: nat)
    ensures var found := FindSession(w, pid, uid, inode, depth);
            && (found.NoAncestor? <==> forall n: nat :: n < depth ==> !QualifiesAbove(w, pid, n, uid, inode))
            && (found.Ancestor? ==>
                  exists n: nat ::
                    n < depth && QualifiesAbove(w, pid, n, uid, inode) && w.procs[Climb(w, pid, n)].id == found.id
                    && forall m: nat :: m < n ==> !QualifiesAbove(w, pid, m, uid, inode))
    decreases depth
  {
    if depth > 0 && pid > 1 && pid in w.procs {
      var parent := w.procs[pid].parent;
      if Qualifies(w, pid, uid, inode) {
        assert QualifiesAbove(w, pid, 0, uid, inode);
      } else if parent != pid {
        FindsNearest(w, parent, uid, inode, depth - 1);
        assert forall n: nat :: QualifiesAbove(w, pid, n + 1, uid, inode) <==> QualifiesAbove(w, parent, n, uid, inode);
        var found := FindSession(w, parent, uid, inode, depth - 1);
        if found.Ancestor? {
          var n: nat :| n < depth - 1 && QualifiesAbove(w, parent, n, uid, inode) && w.procs[Climb(w, parent, n)].id == found.id
                        && forall m: nat :: m < n ==> !QualifiesAbove(w, parent, m, uid, inode);
          forall m: nat | m < n + 1 ensures !QualifiesAbove(w, pid, m, uid, inode) {
            assert m > 0 ==> !QualifiesAbove(w, parent, m - 1, uid, inode);
          }
          assert QualifiesAbove(w, pid, n + 1, uid, inode);
        } else {
          forall n: nat | n < depth ensures !QualifiesAbove(w, pid, n, uid, inode) {
            assert n > 0 ==> !QualifiesAbove(w, parent, n - 1, uid, inode);
          }
        }
      }
    }
  }

  /** The session a helper on this connection runs under. */
  function OwnSession(w: World, h: Identity, t: Transport): Ancestor {
    if !Connected(w, t) || h.pid !in w.procs then NoAncestor
    else FindSession(w, w.procs[h.pid].parent, h.uid, w.connections[t].inode, ANCESTOR_LIMIT)
  }

  // ---------- building blocks of a step ----------

  /** Between lock and unlock of the per-rule registry lock. */
  predicate Critical(pc: Pc) {
    !pc.Idle? && !pc.Exited? && !Searching(pc) && !Locking(pc)
  }

  /** A claim that is still finding out about its own connection. */
  predicate Searching(pc: Pc) { pc.ClaimSession? || pc.ClaimTransport? }

  predicate Locking(pc: Pc) { pc.ClaimLock? || pc.ConfirmLock? || pc.ReleaseLock? }

  function Goto(w: World, h: Identity, pc: Pc): World
    requires h in w.helpers
  {
    w.(helpers := w.helpers[h := w.helpers[h].(pc := pc)])
  }

  /** Emit a reply and return to the request loop (`main` exits after a successful release). */
  function Answer(w: World, h: Identity, reply: Reply): World
    requires h in w.helpers
  {
    w.(helpers := w.helpers[h := w.helpers[h].(pc := if reply.ReleaseOk? then Exited else Idle, reply := reply)])
  }

  function Unlock(w: World, h: Identity): World
    requires h in w.helpers
  {
    w.(locks := w.locks - {KeyOf(w.helpers[h].claim)})
  }

  function Refuse(w: World, h: Identity, code: Code): World
    requires h in w.helpers
  {
    Answer(Unlock(w, h), h, Refused(code))
  }

  function Lock(w: World, h: Identity, pc: Pc, o: Oracle): World
    requires h in w.helpers
  {
    var key := KeyOf(w.helpers[h].claim);
    if o.lockFails then Answer(w, h, Refused(PermissionDenied))
    else if key in w.locks then w
    else Goto(w.(locks := w.locks[key := h]), h, pc)
  }

  function Deliver(w: World, h: Identity, target: Identity, kill: bool): World
    requires h in w.helpers
  {
    var s := w.helpers[h];
    if Present(w, target) && s.self.Known?
    then w.(signals := w.signals + [Signal(h, s.self.session, KeyOf(s.claim), s.claim.generation, target, kill)])
    else w
  }

  function MakeRecord(s: Helper, h: Identity, phase: Phase): Record
    requires s.self.Known?
  {
    Record(s.claim, phase, s.self.session, h, s.transport, s.self.proof)
  }

  function Register(w: World, record: Record): World {
    w.(records := w.records[KeyOf(record.claim) := record], history := w.history + [record])
  }

  function CommitHelper(s: Helper, o: Oracle, ok: Reply): Helper {
    s.(claimed := o.write.Written? || !ok.ClaimOk?, pc := Idle, reply := if o.write.Written? then ok else Refused(IoError))
  }

  /** `write_record`, unlock and reply; the rename may have happened although the write failed. */
  function Commit(w: World, h: Identity, record: Record, o: Oracle, ok: Reply): World
    requires h in w.helpers
  {
    var w1 := Unlock(w, h).(helpers := w.helpers[h := CommitHelper(w.helpers[h], o, ok)]);
    if o.write.NotWritten? then w1 else Register(w1, record)
  }

  // ---------- what a helper decides from one observation ----------

  datatype Move = Stay | Fail(code: Code) | Go(pc: Pc)

  /** Positions of `validate_old_record` and of the look at the old listener. */
  predicate Checking(pc: Pc) {
    || pc.OldIdentity? || pc.OldTransport? || pc.OldInode? || pc.OldDescriptors? || pc.OldProof?
    || pc.OldListener? || pc.OldProbe? || pc.OldOwner? || pc.OldLive? || pc.OldGoneProbe?
  }

  /** `validate_old_record`: a session that is still there must still hold its recorded connection, or
      hide what it holds while the connection is the recorded one. */
  function DecideOldSession(w: World, pc: Pc): Move {
    match pc
    case OldIdentity(prior) => Go(if Present(w, prior.session) then OldTransport(prior) else OldListener(prior))
    case OldTransport(prior) => if Connected(w, prior.transport) then Go(OldInode(prior)) else Fail(OwnershipMismatch)
    case OldInode(prior) =>
      if Connected(w, prior.transport) then Go(OldDescriptors(prior, w.connections[prior.transport].inode))
      else Fail(OwnershipMismatch)
    case OldDescriptors(prior, inode) =>
      (match OwnedBy(w, prior.session.pid, inode)
       case Owned => Go(OldListener(prior))
       case Denied => Go(OldProof(prior))
       case NotOwned => Fail(OwnershipMismatch))
    case OldProof(prior) =>
      if Connected(w, prior.transport) && w.connections[prior.transport] == prior.sessionProof then Go(OldListener(prior))
      else Fail(OwnershipMismatch)
    case _ => Stay
  }

  /** Past the old session: a changed address is looked at before anybody is signalled. */
  function Onward(s: Helper, prior: Record, live: bool): Move
    requires s.self.Known?
  {
    if prior.session == s.self.session then Fail(OwnershipMismatch)
    else if prior.claim.host != s.claim.host || prior.claim.port != s.claim.port then Go(NewAddress(prior, live))
    else Reclaim(prior, live)
  }

  function Reclaim(prior: Record, live: bool): Move {
    Go(if live then PinOpen(prior) else GoneCheck(prior))
  }

  ghost function DecideOldListener(w: World, s: Helper, o: Oracle): Move
    requires s.self.Known?
  {
    match s.pc
    case OldListener(prior) =>
      (match FindListener(w, prior.claim.host, prior.claim.port)
       case NoListener => Go(OldProbe(prior))
       case One(row) => if row.uid == prior.session.uid then Go(OldOwner(prior, row)) else Fail(UnmanagedConflict)
       case Ambiguous => Fail(UnmanagedConflict))
    case OldProbe(prior) =>
      if BindRefused(w, prior.claim.host, prior.claim.port, o) then Fail(UnmanagedConflict) else Go(OldLive(prior, false))
    case OldOwner(prior, row) =>
      if OwnedBy(w, prior.session.pid, row.inode).NotOwned?
         || (prior.phase.Confirmed? && prior.phase.listener != SocketProof(row.uid, row.inode))
      then Fail(UnmanagedConflict)
      else Go(OldLive(prior, true))
    case OldLive(prior, bound) =>
      if Present(w, prior.session) then Onward(s, prior, true)
      else if bound then Fail(UnmanagedConflict)
      else Go(OldGoneProbe(prior))
    case OldGoneProbe(prior) =>
      if BindRefused(w, prior.claim.host, prior.claim.port, o) then Fail(UnmanagedConflict) else Onward(s, prior, false)
    case _ => Stay
  }

  /** The two looks at a requested address: the listing, then the bind. */
  ghost function DecideAddress(w: World, claim: Claim, pc: Pc, o: Oracle): Move {
    var one := FindListener(w, claim.host, claim.port).One?;
    var refused := BindRefused(w, claim.host, claim.port, o);
    match pc
    case NewAddress(prior, live) => if one then Fail(NewAddressOccupied) else Go(NewProbe(prior, live))
    case NewProbe(prior, live) => if refused then Fail(NewAddressOccupied) else Reclaim(prior, live)
    case GoneCheck(prior) => if one then Fail(UnmanagedConflict) else Go(GoneProbe(prior))
    case GoneProbe(prior) => if refused then Fail(UnmanagedConflict) else Go(FinalCheckAfter(prior, false))
    case FinalCheckFresh => if one then Fail(UnmanagedConflict) else Go(FinalProbeFresh)
    case FinalProbeFresh => if refused then Fail(UnmanagedConflict) else Go(WriteFresh)
    case FinalCheckAfter(prior, reclaimed) => if one then Fail(UnmanagedConflict) else Go(FinalProbeAfter(prior, reclaimed))
    case FinalProbeAfter(prior, reclaimed) => if refused then Fail(UnmanagedConflict) else Go(WriteAfter(prior, reclaimed))
    case _ => Stay
  }

  predicate Pinning(pc: Pc) { pc.PinOpen? || pc.PinSetOwner? || pc.PinRecheck? || pc.PinWait? }

  predicate CheckingSession(pc: Pc) {
    pc.OldIdentity? || pc.OldTransport? || pc.OldInode? || pc.OldDescriptors? || pc.OldProof?
  }

  /** `claim_op` from reading the record to the last port check. */
  ghost function DecideClaim(w: World, s: Helper, o: Oracle): Move
    requires s.self.Known?
  {
    if s.pc.ClaimRead? then DecideRead(w, s.claim, o)
    else if CheckingSession(s.pc) then DecideOldSession(w, s.pc)
    else if Checking(s.pc) then DecideOldListener(w, s, o)
    else if Pinning(s.pc) then DecidePin(w, s.pc, o)
    else DecideAddress(w, s.claim, s.pc, o)
  }

  function DecideRead(w: World, claim: Claim, o: Oracle): Move {
    if o.unreadable then Fail(OwnershipMismatch)
    else if KeyOf(claim) !in w.records then Go(FinalCheckFresh)
    else
      var prior := w.records[KeyOf(claim)];
      if prior.claim.generation >= claim.generation then Fail(OwnershipMismatch) else Go(OldIdentity(prior))
  }

  /** `pin_signal(&oldid, 1)` around the signals: pin the process directory, bind the asynchronous
      owner to the pid, look again; after a signal wait, and escalate once when nothing happened. */
  function DecidePin(w: World, pc: Pc, o: Oracle): Move {
    match pc
    case PinOpen(prior) =>
      if Present(w, prior.session) then Go(PinSetOwner(prior)) else Fail(PermissionDenied)
    case PinSetOwner(prior) =>
      if o.signalFails || prior.session.pid !in w.procs then Fail(PermissionDenied)
      else Go(PinRecheck(prior, w.procs[prior.session.pid].id))
    case PinRecheck(prior, target) =>
      if Present(w, prior.session) then Go(PinSignal(prior, target, false)) else Fail(PermissionDenied)
    case PinWait(prior, target, kill) =>
      if Dead(w, prior.session) then Go(FinalCheckAfter(prior, true))
      else if !o.timeout then Stay
      else if kill then Fail(PermissionDenied)
      else Go(PinSignal(prior, target, true))
    case _ => Stay
  }

  predicate HoldsLease(w: World, claim: Claim) {
    KeyOf(claim) in w.records && SameToken(w.records[KeyOf(claim)].claim, claim)
  }

  ghost function DecideConfirm(w: World, s: Helper, o: Oracle): Move
    requires s.self.Known?
  {
    match s.pc
    case ConfirmRead =>
      if o.unreadable || !HoldsLease(w, s.claim) then Fail(Superseded) else Go(ConfirmIdentity)
    case ConfirmIdentity => if Present(w, s.self.session) then Go(ConfirmTransport) else Fail(OwnershipMismatch)
    case ConfirmTransport =>
      if Connected(w, s.transport) && w.connections[s.transport] == s.self.proof then Go(ConfirmListener)
      else Fail(OwnershipMismatch)
    case ConfirmListener =>
      (match FindListener(w, s.claim.host, s.claim.port)
       case One(row) =>
         if row.host != s.claim.host then Fail(OwnershipMismatch)
         else if row.uid != s.self.session.uid then Fail(UnmanagedConflict)
         else Go(ConfirmOwner(row))
       case _ => Fail(ListenerMissing))
    case ConfirmOwner(row) =>
      var owner := OwnedBy(w, s.self.session.pid, row.inode);
      if owner.Owned?
         || (owner.Denied? && KeyOf(s.claim) in w.records && w.records[KeyOf(s.claim)].sessionProof == s.self.proof)
      then Go(ConfirmWrite(SocketProof(row.uid, row.inode)))
      else Fail(UnmanagedConflict)
    case _ => Stay
  }

  predicate Confirming(pc: Pc) {
    pc.ConfirmRead? || pc.ConfirmIdentity? || pc.ConfirmTransport? || pc.ConfirmListener? || pc.ConfirmOwner?
  }

  ghost function Decide(w: World, s: Helper, o: Oracle): Move {
    if s.pc.ReleaseRead? then
      (if o.unreadable || !HoldsLease(w, s.claim) then Fail(Superseded) else Go(ReleaseUnlink))
    else if s.self.Unknown? then Stay
    else if Confirming(s.pc) then DecideConfirm(w, s, o)
    else DecideClaim(w, s, o)
  }

  // ---------- one step of a helper ----------

  function Perform(w: World, h: Identity, move: Move): World
    requires h in w.helpers
  {
    match move
    case Stay => w
    case Fail(code) => Refuse(w, h, code)
    case Go(pc) => Goto(w, h, pc)
  }

  function SendSignal(w: World, h: Identity, o: Oracle): World
    requires h in w.helpers && w.helpers[h].pc.PinSignal?
  {
    var pc := w.helpers[h].pc;
    if o.signalFails then Refuse(w, h, PermissionDenied)
    else Goto(Deliver(w, h, pc.target, pc.kill), h, PinWait(pc.prior, pc.target, pc.kill))
  }

  function Unlink(w: World, h: Identity, o: Oracle): World
    requires h in w.helpers
  {
    var key := KeyOf(w.helpers[h].claim);
    if !o.write.Written? || key !in w.records then Refuse(w, h, IoError)
    else
      var w1 := w.(records := w.records - {key}, released := w.released + {w.records[key].claim});
      Answer(Unlock(w1, h), h, ReleaseOk)
  }

  predicate Writing(pc: Pc) { pc.WriteFresh? || pc.WriteAfter? || pc.ConfirmWrite? }

  /** Steps that only look at the world and choose where to go next. */
  predicate Deciding(pc: Pc) {
    Critical(pc) && !pc.PinSignal? && !pc.ReleaseUnlink? && !Writing(pc)
  }

  /** What `claim_op` establishes about its own connection before it takes the lock. */
  function Search(w: World, h: Identity): Helper
    requires h in w.helpers
  {
    var s := w.helpers[h];
    match s.pc
    case ClaimSession =>
      (match OwnSession(w, h, s.transport)
       case NoAncestor => s.(pc := Idle, reply := Refused(OwnershipMismatch))
       case Ancestor(session) => s.(pc := ClaimTransport(session)))
    case ClaimTransport(found) =>
      if Connected(w, s.transport) then s.(self := Known(found, w.connections[s.transport]), pc := ClaimLock)
      else s.(pc := Idle, reply := Refused(OwnershipMismatch))
    case _ => s
  }

  function AfterLock(pc: Pc): Pc
    requires Locking(pc)
  {
    if pc.ClaimLock? then ClaimRead else if pc.ConfirmLock? then ConfirmRead else ReleaseRead
  }

  function WritePhase(pc: Pc): Phase {
    if pc.ConfirmWrite? then Confirmed(pc.proof) else Claimed
  }

  function WriteReply(pc: Pc): Reply {
    if pc.ConfirmWrite? then ConfirmOk else ClaimOk(pc.WriteAfter? && pc.reclaimed)
  }

  /** Steps before the lock, and those that take it, send a signal or change the registry. */
  function Effect(w: World, h: Identity, o: Oracle): World
    requires h in w.helpers
  {
    var s := w.helpers[h];
    if Searching(s.pc) then w.(helpers := w.helpers[h := Search(w, h)])
    else if Locking(s.pc) then Lock(w, h, AfterLock(s.pc), o)
    else if s.pc.PinSignal? then SendSignal(w, h, o)
    else if s.pc.ReleaseUnlink? then Unlink(w, h, o)
    else if Writing(s.pc) && s.self.Known? then Commit(w, h, MakeRecord(s, h, WritePhase(s.pc)), o, WriteReply(s.pc))
    else w
  }

  ghost function HelperStep(w: World, h: Identity, o: Oracle): World
    requires h in w.helpers
  {
    if Deciding(w.helpers[h].pc) then Perform(w, h, Decide(w, w.helpers[h], o)) else Effect(w, h, o)
  }

  /** The state of an idle helper after it read a request line. */
  function Accept(w: World, h: Identity, command: Command): Helper
    requires h in w.helpers
  {
    var s := w.helpers[h].(reply := Pending, mark := |w.signals|);
    match command
    case ClaimCommand =>
      if s.claimed then s.(reply := Refused(InvalidRequest)) else s.(self := Unknown, pc := ClaimSession)
    case ConfirmCommand(token, acknowledged) =>
      if !s.claimed || !SameToken(token, s.claim) then s.(reply := Refused(InvalidRequest))
      else if !acknowledged then s.(reply := Refused(OwnershipMismatch))
      else s.(pc := ConfirmLock)
    case ReleaseCommand(token) =>
      if !s.claimed || !SameToken(token, s.claim) then s.(reply := Refused(InvalidRequest)) else s.(pc := ReleaseLock)
  }

  function Receive(w: World, h: Identity, command: Command): World
    requires h in w.helpers
  {
    w.(helpers := w.helpers[h := Accept(w, h, command)])
  }

  // ---------- the whole system ----------

  /** Process death closes the lock file, so the kernel drops a lock the helper held. */
  function Crash(w: World, id: Identity): World {
    if id !in w.helpers then w
    else
      var w1 := if Critical(w.helpers[id].pc) then Unlock(w, id) else w;
      Goto(w1, id, Exited)
  }

  function FileAt(w: World, directory: string): File {
    if directory in w.files then w.files[directory] else Absent
  }

  predicate Running(w: World, h: Identity) {
    h in w.helpers && !Dead(w, h)
  }

  function SpawnProcess(w: World, id: Identity, parent: nat): World {
    if id in w.born || id.pid in w.procs then w
    else w.(procs := w.procs[id.pid := Process(id, parent, false)], born := w.born + {id})
  }

  function Zombie(w: World, pid: nat): World
    requires pid in w.procs
  {
    w.(procs := w.procs[pid := w.procs[pid].(zombie := true)])
  }

  function ExitProcess(w: World, pid: nat): World {
    if pid !in w.procs || w.procs[pid].zombie then w else Crash(Zombie(w, pid), w.procs[pid].id)
  }

  function ReapProcess(w: World, pid: nat): World {
    if pid !in w.procs || !w.procs[pid].zombie then w else w.(procs := w.procs - {pid})
  }

  function OpenAt(w: World, directory: string, newOwner: string, save: Save): World {
    if newOwner in w.owners then w
    else w.(files := w.files[directory := OpenFile(FileAt(w, directory), newOwner, save).0], owners := w.owners + {newOwner})
  }

  function ReserveAt(w: World, directory: string, owner: string, rule: string, session: string, host: nat,
                     port: nat, save: Save)
    : World
  {
    var (file, result) := ReserveFile(FileAt(w, directory), owner, rule, session, host, port, save);
    w.(files := w.files[directory := file], issued := if result.Ok? then w.issued + [result.value] else w.issued)
  }

  /** The file is lost or damaged from outside; it never regains older contents. */
  function TamperAt(w: World, directory: string, remove: bool): World {
    w.(files := w.files[directory := if remove then Absent else Unreadable])
  }

  /** `RemoteLease::claim` starts one helper for each reserved claim. */
  ghost function Start(w: World, h: Identity, slot: nat, transport: Transport): World {
    if h in w.helpers || Dead(w, h) || slot >= |w.issued| || exists g :: g in w.helpers && w.helpers[g].slot == slot then w
    else w.(helpers := w.helpers[h := Helper(slot, w.issued[slot], transport, false, Unknown, Idle, Pending, 0)])
  }

  ghost function Apply(w: World, a: Action): World {
    match a
    case Spawn(id, parent) => SpawnProcess(w, id, parent)
    case Exit(pid) => ExitProcess(w, pid)
    case Reap(pid) => ReapProcess(w, pid)
    case Sockets(listeners, connections, fds, hidden) =>
      w.(listeners := listeners, connections := connections, fds := fds, hidden := hidden)
    case OpenManager(directory, newOwner, save) => OpenAt(w, directory, newOwner, save)
    case Reserve(directory, owner, rule, session, host, port, save) =>
      ReserveAt(w, directory, owner, rule, session, host, port, save)
    case Tamper(directory, remove) => TamperAt(w, directory, remove)
    case StartHelper(h, slot, transport) => Start(w, h, slot, transport)
    case Request(h, command) => if Running(w, h) && w.helpers[h].pc.Idle? then Receive(w, h, command) else w
    case Advance(h, o) => if Running(w, h) then HelperStep(w, h, o) else w
  }

  const INITIAL: World :=
    World(map[], {}, {}, map[], {}, {}, map[], map[], map[], map[], {}, [], [], {}, [])

  /** The world after any sequence of actions; an action that is not enabled changes nothing. */
  ghost function Run(actions: seq<Action>): World {
    if actions == [] then INITIAL
    else Apply(Run(actions[..|actions| - 1]), actions[|actions| - 1])
  }
}
