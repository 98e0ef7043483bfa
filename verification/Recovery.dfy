/** The manager's durable identity and its per-rule attempt counters
    (crates/fwm-core/src/cleanup/context.rs). One state directory may be shared by any
    number of manager processes; an exclusive file lock makes each operation atomic. */
module Recovery {
  import opened Basics

  /** What a manager sends to the remote helper: a fencing token plus the wanted listener. */
  datatype Claim = Claim(owner: string, rule: string, generation: nat, session: string, host: nat, port: nat)

  datatype State = State(owner: string, generations: map<string, nat>)

  /** `recovery.json` on disk. */
  datatype File = Absent | Unreadable | Stored(state: State)

  /** How far an atomic save got: the rename can take effect although the call reports failure. */
  datatype Save = Durable | FailedBeforeRename | FailedAfterRename

  datatype Error = Io | InvalidState | IdentityChanged | GenerationExhausted

  function SaveTo(file: File, state: State, save: Save): File {
    if save.FailedBeforeRename? then file else Stored(state)
  }

  function Load(file: File): Result<State, Error> {
    match file
    case Absent => Err(Io)
    case Unreadable => Err(InvalidState)
    case Stored(state) => Ok(state)
  }

  function Generation(state: State, rule: string): nat {
    if rule in state.generations then state.generations[rule] else 0
  }

  /** Opening adopts an existing identity and creates one only when no file exists. */
  function OpenFile(file: File, newOwner: string, save: Save): (File, Result<string, Error>) {
    if file.Absent? then
      (SaveTo(file, State(newOwner, map[]), save), if save.Durable? then Ok(newOwner) else Err(Io))
    else
      (file, match Load(file) case Ok(state) => Ok(state.owner) case Err(e) => Err(e))
  }

  /** Reserving bumps the rule's counter durably before the claim is handed out. */
  function ReserveFile(file: File, owner: string, rule: string, session: string, host: nat, port: nat, save: Save)
    : (File, Result<Claim, Error>)
  {
    match Load(file)
    case Err(e) => (file, Err(e))
    case Ok(state) =>
      if state.owner != owner then (file, Err(IdentityChanged))
      else if Generation(state, rule) >= U64_MAX then (file, Err(GenerationExhausted))
      else
        var generation := Generation(state, rule) + 1;
        var next := State(owner, state.generations[rule := generation]);
        (SaveTo(file, next, save),
         if save.Durable? then Ok(Claim(owner, rule, generation, session, host, port)) else Err(Io))
  }

  /** A state directory; its methods run under `recovery.lock`. */
  class StateDirectory {
    var file: File

    constructor ()
      ensures file == Absent
    {
      file := Absent;
    }

    method Write(state: State, save: Save) returns (saved: bool)
      modifies this
      ensures file == SaveTo(old(file), state, save)
      ensures saved == save.Durable? && (file == old(file) || file == Stored(state))
      ensures save.FailedBeforeRename? ==> file == old(file)
      ensures saved || save.FailedAfterRename? ==> file == Stored(state)
    {
      if !save.FailedBeforeRename? {
        file := Stored(state);
      }
      saved := save.Durable?;
    }

    method Open(newOwner: string, save: Save) returns (owner: Result<string, Error>)
      modifies this
      ensures (file, owner) == OpenFile(old(file), newOwner, save)
      ensures old(file).Stored? ==> owner == Ok(old(file).state.owner) && file == old(file)
      ensures old(file).Unreadable? ==> owner == Err(InvalidState) && file == old(file)
      ensures old(file).Absent? ==> (owner == Ok(newOwner) <==> save.Durable?) && (owner == Err(Io) <==> !save.Durable?)
      ensures old(file).Absent? ==> file == Stored(State(newOwner, map[])) || (owner.Err? && file == old(file))
      ensures owner.Ok? ==> file.Stored? && file.state.owner == owner.value
    {
      if file != Absent {
        match file {
          case Unreadable => return Err(InvalidState);
          case Stored(state) => return Ok(state.owner);
        }
      }
      var saved := Write(State(newOwner, map[]), save);
      owner := if saved then Ok(newOwner) else Err(Io);
    }

    method Reserve(owner: string, rule: string, session: string, host: nat, port: nat, save: Save)
      returns (claim: Result<Claim, Error>)
      modifies this
      ensures (file, claim) == ReserveFile(old(file), owner, rule, session, host, port, save)
      ensures claim.Ok? ==>
                && old(file).Stored? && old(file).state.owner == owner && file.Stored?
                && (if rule in old(file).state.generations then claim.value.generation == old(file).state.generations[rule] + 1
                    else claim.value.generation == 1)
                && claim.value.owner == owner && claim.value.rule == rule && claim.value.session == session
                && claim.value.host == host && claim.value.port == port && claim.value.generation <= U64_MAX
                && file.state.owner == owner
                && file.state.generations == old(file).state.generations[rule := claim.value.generation]
      ensures claim == Err(IdentityChanged) <==> old(file).Stored? && old(file).state.owner != owner
      ensures claim == Err(GenerationExhausted) <==>
                && old(file).Stored? && old(file).state.owner == owner
                && rule in old(file).state.generations && old(file).state.generations[rule] >= U64_MAX
      ensures claim == Err(IdentityChanged) || claim == Err(GenerationExhausted) ==> file == old(file)
      ensures !old(file).Stored? ==> claim.Err? && file == old(file)
      ensures claim.Err? && save.Durable? ==> file == old(file)
      ensures old(file).Stored? && old(file).state.owner == owner && claim != Err(GenerationExhausted) ==>
                (claim.Ok? <==> save.Durable?)
    {
      var loaded := Load(file);
      if loaded.Err? {
        return Err(loaded.error);
      }
      var state := loaded.value;
      if state.owner != owner {
        return Err(IdentityChanged);
      }
      var generation := Generation(state, rule);
      if generation >= U64_MAX {
        return Err(GenerationExhausted);
      }
      generation := generation + 1;
      state := State(owner, state.generations[rule := generation]);
      var saved := Write(state, save);
      claim := if saved then Ok(Claim(owner, rule, generation, session, host, port)) else Err(Io);
    }
  }

  /** A daemon that opens its directory again finds the identity it had, and may go on reserving: the next
      generation of a rule is one above the last. */
  method Restart(d: StateDirectory, first: string, again: string, rule: string, session: string, host: nat, port: nat)
    returns (before: Result<Claim, Error>, after: Result<Claim, Error>)
    requires d.file.Absent? || (d.file.Stored? && Generation(d.file.state, rule) + 1 < U64_MAX)
    modifies d
    ensures before.Ok? && after.Ok?
    ensures before.value.owner == after.value.owner && after.value.generation == before.value.generation + 1
    ensures old(d.file).Stored? ==> before.value.owner == old(d.file).state.owner
    ensures old(d.file).Absent? ==> before.value.owner == first && before.value.generation == 1
  {
    var owner := d.Open(first, Durable);
    before := d.Reserve(owner.value, rule, session, host, port, Durable);
    var same := d.Open(again, Durable);
    after := d.Reserve(same.value, rule, session, host, port, Durable);
  }
}
