/** What workers put on an SSH session and what came back: tcpip-forward and
    cancel-tcpip-forward (section 7.1 of RFC 4254) and the helper's claim, confirm and release.
    Only requests that still reached the peer are recorded. */
module ListenerLog {
  datatype Wire =
    | ListenSent(worker: nat) | ListenGranted(worker: nat) | ListenRefused(worker: nat)
    | CancelSent(worker: nat) | CancelConfirmed(worker: nat) | CancelRejected(worker: nat)
    | ClaimSent(worker: nat) | ConfirmSent(worker: nat) | Confirmed(worker: nat) | ReleaseSent(worker: nat)

  /** How a global request ends; `Lost` is the local error when its transport died before an answer. */
  datatype Answer = Accepted | Refused | Lost

  /** A verified rule asks for its listener at most this often on one session. */
  const VERIFIED_LISTEN_ATTEMPTS: nat := 3

  function Last(log: seq<Wire>): Wire
    requires log != []
  {
    log[|log| - 1]
  }

  function Front(log: seq<Wire>): seq<Wire>
    requires log != []
  {
    log[..|log| - 1]
  }

  /** The server may hold a listener for this worker: asked for, and neither refused nor given back. */
  predicate Outstanding(log: seq<Wire>, worker: nat) {
    log != [] &&
    (if Last(log) == ListenSent(worker) || Last(log) == ListenGranted(worker) then true
     else if Last(log) == ListenRefused(worker) || Last(log) == CancelConfirmed(worker) then false
     else Outstanding(Front(log), worker))
  }

  function Listens(log: seq<Wire>, worker: nat): nat {
    if log == [] then 0 else Listens(Front(log), worker) + if Last(log) == ListenSent(worker) then 1 else 0
  }

  function Claims(log: seq<Wire>): nat {
    if log == [] then 0 else Claims(Front(log)) + if Last(log).ClaimSent? then 1 else 0
  }

  /** A lease is given up only when its worker has no listener left at the server. */
  predicate ReleasesSafe(log: seq<Wire>) {
    forall i :: 0 <= i < |log| && log[i].ReleaseSent? ==> !Outstanding(log[..i], log[i].worker)
  }

  /** The part of the log that concerns one worker. */
  datatype View = View(outstanding: bool, listens: nat, granted: bool, confirmed: bool)

  function ViewOf(log: seq<Wire>, worker: nat): View {
    View(Outstanding(log, worker), Listens(log, worker), ListenGranted(worker) in log, Confirmed(worker) in log)
  }

  function Observe(v: View, e: Wire): View {
    match e
    case ListenSent(_) => v.(outstanding := true, listens := v.listens + 1)
    case ListenGranted(_) => v.(outstanding := true, granted := true)
    case ListenRefused(_) => v.(outstanding := false)
    case CancelConfirmed(_) => v.(outstanding := false)
    case Confirmed(_) => v.(confirmed := true)
    case _ => v
  }

  function ObserveAll(v: View, sent: seq<Wire>): View
    decreases |sent|
  {
    if sent == [] then v else ObserveAll(Observe(v, sent[0]), sent[1..])
  }

  /** Releases among `sent` happen with nothing outstanding. */
  predicate SentSafely(v: View, sent: seq<Wire>)
    decreases |sent|
  {
    sent != [] ==> (sent[0].ReleaseSent? ==> !v.outstanding) && SentSafely(Observe(v, sent[0]), sent[1..])
  }

  function ClaimsIn(sent: seq<Wire>): nat
    decreases |sent|
  {
    if sent == [] then 0 else (if sent[0].ClaimSent? then 1 else 0) + ClaimsIn(sent[1..])
  }

  lemma Append(log: seq<Wire>, e: Wire)
    ensures forall w :: ViewOf(log + [e], w) == if e.worker == w then Observe(ViewOf(log, w), e) else ViewOf(log, w)
    ensures Claims(log + [e]) == Claims(log) + if e.ClaimSent? then 1 else 0
    ensures ReleasesSafe(log) && (e.ReleaseSent? ==> !Outstanding(log, e.worker)) ==> ReleasesSafe(log + [e])
  {
    assert Front(log + [e]) == log && Last(log + [e]) == e;
    assert forall i :: 0 <= i < |log| ==> (log + [e])[..i] == log[..i];
    assert (log + [e])[..|log|] == log;
  }

  lemma {:induction false} AppendAll(log: seq<Wire>, sent: seq<Wire>, worker: nat)
    requires forall e :: e in sent ==> e.worker == worker
    ensures ViewOf(log + sent, worker) == ObserveAll(ViewOf(log, worker), sent)
    ensures forall w :: w != worker ==> ViewOf(log + sent, w) == ViewOf(log, w)
    ensures Claims(log + sent) == Claims(log) + ClaimsIn(sent)
    ensures ReleasesSafe(log) && SentSafely(ViewOf(log, worker), sent) ==> ReleasesSafe(log + sent)
    decreases |sent|
  {
    if sent == [] {
      assert log + sent == log;
    } else {
      Append(log, sent[0]);
      AppendAll(log + [sent[0]], sent[1..], worker);
      assert log + sent == (log + [sent[0]]) + sent[1..];
    }
  }
}
