/** The persistent configuration and what makes one acceptable
    (crates/fwm-core/src/model.rs, `Config::validate`). */
module Configuration {
  import opened Addresses
  import opened Basics

  /** `parses` says whether the printed form of the endpoint reads back. */
  datatype Endpoint = Endpoint(host: string, port: nat, parses: bool)

  datatype Tunnel =
    | Local(listen: Socket, to: Endpoint)
    | Remote(listen: Socket, to: Endpoint)
    | Dynamic(listen: Socket)
    | RemoteDynamic(listen: Socket)
    | Relay(listen: Socket, to: Endpoint, targetServer: string)

  /** Everything about a server profile but its identity and label; `valid` is the verdict of
      `validate_connection_options`. */
  datatype Connection = Connection(details: string, valid: bool)

  datatype Server = Server(id: string, name: string, connection: Connection)

  datatype Forward = Forward(
    id: string, name: string, group: Option<string>, server: string, tunnel: Tunnel,
    running: bool, dedicated: bool, verified: bool)

  datatype Retry = Retry(keepaliveInterval: nat, keepaliveMax: nat, connectTimeout: nat, maxDelay: nat, stableReset: nat)

  datatype Config = Config(schema: nat, revision: nat, retry: Retry, servers: seq<Server>, forwards: seq<Forward>)

  const SCHEMA_VERSION: nat := 4
  const MAX_REVISION: nat := 0x7FFF_FFFF_FFFF_FFFF
  const MAX_SERVERS: nat := 128
  const MAX_FORWARDS: nat := 512
  const ONE_YEAR: nat := 31_536_000

  /** The listener lives on a remote SSH server. */
  predicate IsRemote(t: Tunnel) {
    t.Remote? || t.RemoteDynamic? || t.Relay?
  }

  predicate SameSide(a: Forward, b: Forward) {
    if IsRemote(a.tunnel) && IsRemote(b.tunnel) then a.server == b.server
    else !IsRemote(a.tunnel) && !IsRemote(b.tunnel)
  }

  /** Two rules that could not listen at the same time. */
  predicate Collide(a: Forward, b: Forward) {
    SameSide(a, b) && Overlaps(a.tunnel.listen, b.tunnel.listen)
  }

  /** Two rules that must be able to listen at the same time. */
  predicate Together(a: Forward, b: Forward) {
    (a.group.Some? && a.group == b.group) || (a.running && b.running)
  }

  /** Where the listener of a rule is: on a server, or here. */
  function ListensAt(f: Forward): Option<string> {
    if f.tunnel.Local? || f.tunnel.Dynamic? then None else Some(f.server)
  }

  /** Two rules collide exactly if they listen on the same host and some destination would reach both. */
  lemma CollideMeansSharedDestination(a: Forward, b: Forward)
    ensures Collide(a, b) <==>
              && ListensAt(a) == ListensAt(b) && a.tunnel.listen.port == b.tunnel.listen.port
              && exists to :: IsCanonical(to) && Covers(a.tunnel.listen.ip, to) && Covers(b.tunnel.listen.ip, to)
  {
    OverlapMeansSharedDestination(a.tunnel.listen.ip, b.tunnel.listen.ip);
  }

  // ---------- names ----------

  /** Bytes of a string in UTF-8. */
  function Bytes(s: string): nat {
    if s == [] then 0
    else (if s[0] as int < 0x80 then 1 else if s[0] as int < 0x800 then 2 else if s[0] as int < 0x1_0000 then 3 else 4) + Bytes(s[1..])
  }

  predicate ValidId(id: string) {
    id != [] && Bytes(id) <= 128
  }

  /** `letters` is the set of characters that count as letters and digits. */
  predicate ValidName(name: string, letters: set<char>) {
    name != [] && Bytes(name) <= 100 && forall c :: c in name ==> c in letters || c == '-' || c == '_' || c == '.'
  }

  // ---------- what a configuration must satisfy ----------

  predicate RetrySound(r: Retry) {
    && r.keepaliveInterval > 0 && r.keepaliveMax > 0 && r.connectTimeout > 0 && r.maxDelay > 0 && r.stableReset > 0
    && r.keepaliveInterval <= ONE_YEAR && r.connectTimeout <= ONE_YEAR && r.maxDelay <= ONE_YEAR && r.stableReset <= ONE_YEAR
  }

  predicate ServersSound(servers: seq<Server>, letters: set<char>) {
    && (forall s :: s in servers ==> ValidName(s.name, letters) && ValidId(s.id) && s.connection.valid)
    && (forall i, j :: 0 <= i < j < |servers| ==> servers[i].id != servers[j].id && servers[i].name != servers[j].name)
    && (forall s, t :: s in servers && t in servers && s.name == t.id ==> s == t)
  }

  predicate Known(servers: seq<Server>, id: string) {
    exists s :: s in servers && s.id == id
  }

  predicate ForwardSound(servers: seq<Server>, f: Forward, letters: set<char>) {
    && ValidName(f.name, letters) && ValidId(f.id) && (f.group.Some? ==> ValidName(f.group.value, letters))
    && Known(servers, f.server) && (f.tunnel.Relay? ==> Known(servers, f.tunnel.targetServer))
    && f.tunnel.listen.port != 0
    && (f.tunnel.Relay? ==> f.dedicated)
    && (f.tunnel.Local? || f.tunnel.Remote? || f.tunnel.Relay? ==> f.tunnel.to.parses)
    && (f.verified ==> IsRemote(f.tunnel))
  }

  predicate Distinct(forwards: seq<Forward>) {
    forall i, j :: 0 <= i < j < |forwards| ==> forwards[i].id != forwards[j].id && forwards[i].name != forwards[j].name
  }

  /** No name is another rule's id, no group is a rule's name or id. */
  predicate NamesApart(forwards: seq<Forward>) {
    && (forall f, g :: f in forwards && g in forwards && f.name == g.id ==> f == g)
    && (forall f, g :: f in forwards && g in forwards && f.group.Some? ==> f.group.value != g.name && f.group.value != g.id)
  }

  predicate ListenersSound(forwards: seq<Forward>) {
    forall i, j :: 0 <= i < j < |forwards| && Together(forwards[i], forwards[j]) ==> !Collide(forwards[i], forwards[j])
  }

  predicate ForwardsSound(servers: seq<Server>, forwards: seq<Forward>, letters: set<char>) {
    && (forall f :: f in forwards ==> ForwardSound(servers, f, letters))
    && Distinct(forwards) && NamesApart(forwards) && ListenersSound(forwards)
  }

  /** Everything `validate` checks apart from the schema version, the revision limit and the size of the encoding. */
  predicate Sound(c: Config, letters: set<char>) {
    && |c.servers| <= MAX_SERVERS && |c.forwards| <= MAX_FORWARDS
    && RetrySound(c.retry) && ServersSound(c.servers, letters) && ForwardsSound(c.servers, c.forwards, letters)
  }

  predicate Accepted(c: Config, letters: set<char>) {
    c.revision <= MAX_REVISION && c.schema == SCHEMA_VERSION && Sound(c, letters)
  }

  /** What an accepted configuration is good for, rule by rule. */
  lemma AcceptedRuleWorks(c: Config, letters: set<char>, f: Forward)
    requires Accepted(c, letters) && f in c.forwards
    ensures f.tunnel.listen.port > 0 && f.id != "" && f.name != ""
    ensures exists s :: s in c.servers && s.id == f.server && s.connection.valid
    ensures f.tunnel.Relay? ==> f.dedicated && exists s :: s in c.servers && s.id == f.tunnel.targetServer && s.connection.valid
    ensures !f.tunnel.Dynamic? && !f.tunnel.RemoteDynamic? ==> f.tunnel.to.parses
    ensures f.verified ==> !f.tunnel.Local? && !f.tunnel.Dynamic?
    ensures forall g :: g in c.forwards && (g.id == f.id || g.name == f.name || g.id == f.name) ==> g == f
    ensures forall g :: g in c.forwards && g.group.Some? ==> g.group.value != f.id && g.group.value != f.name
    ensures forall g :: g in c.forwards && g != f && ((f.running && g.running) || (f.group.Some? && g.group == f.group)) ==> !Collide(f, g) && !Collide(g, f)
    ensures 0 < c.retry.keepaliveInterval <= 31_536_000 && 0 < c.retry.connectTimeout <= 31_536_000
    ensures 0 < c.retry.maxDelay <= 31_536_000 && 0 < c.retry.stableReset <= 31_536_000 && c.retry.keepaliveMax > 0
    ensures |c.servers| <= 128 && |c.forwards| <= 512 && c.schema == 4 && c.revision < 0x8000_0000_0000_0000
  {
    assert ForwardSound(c.servers, f, letters);
    assert f.id != [] && f.name != [];
    var i :| 0 <= i < |c.forwards| && c.forwards[i] == f;
    forall g | g in c.forwards && g != f
      ensures g.id != f.id && g.name != f.name
      ensures Together(f, g) ==> !Collide(f, g) && !Collide(g, f)
    {
      var j :| 0 <= j < |c.forwards| && c.forwards[j] == g;
      OverlapIsSymmetric(f.tunnel.listen, g.tunnel.listen);
      assert i < j || j < i;
    }
  }

  // ---------- the check itself ----------

  datatype Problem = BadRevision | TooMany | BadSchema | BadRetry | BadServer | BadServerName | BadForward | BadGroup | BadForwardName
    | Collision(first: nat, second: nat)

  method CheckServers(servers: seq<Server>, letters: set<char>) returns (problem: Option<Problem>)
    ensures problem.None? <==> ServersSound(servers, letters)
  {
    var ids: set<string>, names: set<string> := {}, {};
    for i := 0 to |servers|
      invariant forall x :: x in ids <==> exists j :: 0 <= j < i && servers[j].id == x
      invariant forall x :: x in names <==> exists j :: 0 <= j < i && servers[j].name == x
      invariant forall j :: 0 <= j < i ==> ValidName(servers[j].name, letters) && ValidId(servers[j].id) && servers[j].connection.valid
      invariant forall j, k :: 0 <= j < k < i ==> servers[j].id != servers[k].id && servers[j].name != servers[k].name
    {
      var s := servers[i];
      assert s in servers;
      if !ValidName(s.name, letters) || !ValidId(s.id) {
        return Some(BadServer);
      }
      if s.id in ids || s.name in names {
        return Some(BadServer);
      }
      ids, names := ids + {s.id}, names + {s.name};
      if !s.connection.valid {
        return Some(BadServer);
      }
    }
    for i := 0 to |servers|
      invariant forall j :: 0 <= j < i && servers[j].name in ids ==> servers[j].name == servers[j].id
    {
      if servers[i].name != servers[i].id && servers[i].name in ids {
        var j :| 0 <= j < |servers| && servers[j].id == servers[i].name;
        assert servers[i] in servers && servers[j] in servers && servers[i] != servers[j];
        return Some(BadServerName);
      }
    }
    forall s, t | s in servers && t in servers && s.name == t.id ensures s == t {
      assert t.id in ids;
    }
    return None;
  }

  method CheckForward(servers: seq<Server>, f: Forward, letters: set<char>) returns (ok: bool)
    ensures ok <==> ForwardSound(servers, f, letters)
  {
    if !ValidName(f.name, letters) || !ValidId(f.id) {
      return false;
    }
    if f.group.Some? && !ValidName(f.group.value, letters) {
      return false;
    }
    if f.tunnel.Relay? && !Known(servers, f.tunnel.targetServer) {
      return false;
    }
    if !Known(servers, f.server) || f.tunnel.listen.port == 0 || (f.tunnel.Relay? && !f.dedicated) {
      return false;
    }
    if (f.tunnel.Local? || f.tunnel.Remote? || f.tunnel.Relay?) && !f.tunnel.to.parses {
      return false;
    }
    ok := f.verified ==> IsRemote(f.tunnel);
  }

  function Ids(forwards: seq<Forward>): set<string> {
    set f | f in forwards :: f.id
  }

  function Names(forwards: seq<Forward>): set<string> {
    set f | f in forwards :: f.name
  }

  function Groups(forwards: seq<Forward>): set<string> {
    set f | f in forwards && f.group.Some? :: f.group.value
  }

  /** The three set comparisons that `validate` makes say what they should. */
  lemma NamesApartBySets(forwards: seq<Forward>)
    requires Distinct(forwards)
    ensures NamesApart(forwards) <==>
              && Groups(forwards) * Names(forwards) == {} && Groups(forwards) * Ids(forwards) == {}
              && forall f :: f in forwards && f.name in Ids(forwards) ==> f.name == f.id
  {
    if NamesApart(forwards) {
      forall x | x in Groups(forwards) ensures x !in Names(forwards) && x !in Ids(forwards) {
        var f :| f in forwards && f.group == Some(x);
      }
    }
    if Groups(forwards) * Names(forwards) == {} && Groups(forwards) * Ids(forwards) == {} {
      forall f, g | f in forwards && g in forwards && f.group.Some? ensures f.group.value != g.name && f.group.value != g.id {
        assert f.group.value !in Groups(forwards) * Names(forwards);
        assert f.group.value !in Groups(forwards) * Ids(forwards);
        assert f.group.value in Groups(forwards) && g.name in Names(forwards) && g.id in Ids(forwards);
      }
    }
    if forall f :: f in forwards && f.name in Ids(forwards) ==> f.name == f.id {
      forall f, g | f in forwards && g in forwards && f.name == g.id ensures f == g {
        assert g.id in Ids(forwards);
      }
    }
  }

  /** Growing sets of ids, names and group names, then the passes over what they must not share. */
  method CheckForwards(servers: seq<Server>, forwards: seq<Forward>,
                       letters: set<char>) returns (problem: Option<Problem>)
    ensures problem.None? <==>
            (forall f :: f in forwards ==> ForwardSound(servers, f, letters)) && Distinct(forwards) && NamesApart(forwards)
    ensures problem.Some? ==> !problem.value.Collision?
  {
    var ids: set<string>, names: set<string>, groups: set<string> := {}, {}, {};
    for i := 0 to |forwards|
      invariant ids == Ids(forwards[..i]) && names == Names(forwards[..i]) && groups == Groups(forwards[..i])
      invariant forall j :: 0 <= j < i ==> ForwardSound(servers, forwards[j], letters)
      invariant Distinct(forwards[..i])
    {
      var f := forwards[i];
      assert forwards[..i + 1] == forwards[..i] + [f] && f in forwards;
      var sound := CheckForward(servers, f, letters);
      if !sound {
        return Some(BadForward);
      }
      if f.id in ids || f.name in names {
        assert exists j :: 0 <= j < i && (forwards[j].id == f.id || forwards[j].name == f.name);
        return Some(BadForward);
      }
      ids, names := ids + {f.id}, names + {f.name};
      if f.group.Some? {
        groups := groups + {f.group.value};
      }
    }
    assert forwards[..|forwards|] == forwards;
    problem := CheckNames(forwards, ids, names, groups);
  }

  method CheckNames(forwards: seq<Forward>, ids: set<string>, names: set<string>,
                    groups: set<string>) returns (problem: Option<Problem>)
    requires Distinct(forwards) && ids == Ids(forwards) && names == Names(forwards) && groups == Groups(forwards)
    ensures problem.None? <==> NamesApart(forwards)
    ensures problem.Some? ==> !problem.value.Collision?
  {
    NamesApartBySets(forwards);
    if groups * names != {} {
      return Some(BadGroup);
    }
    for i := 0 to |forwards|
      invariant forall j :: 0 <= j < i && forwards[j].name in ids ==> forwards[j].name == forwards[j].id
    {
      if forwards[i].name != forwards[i].id && forwards[i].name in ids {
        return Some(BadForwardName);
      }
    }
    if groups * ids != {} {
      return Some(BadGroup);
    }
    return None;
  }

  /** Every pair once; the reported pair is a real one. */
  method CheckListeners(forwards: seq<Forward>) returns (problem: Option<Problem>)
    ensures problem.None? <==> ListenersSound(forwards)
    ensures problem.Some? ==>
              && problem.value.Collision? && problem.value.first < problem.value.second < |forwards|
              && Together(forwards[problem.value.first], forwards[problem.value.second])
              && Collide(forwards[problem.value.first], forwards[problem.value.second])
  {
    for i := 0 to |forwards|
      invariant forall j, k :: 0 <= j < i && j < k < |forwards| && Together(forwards[j], forwards[k]) ==> !Collide(forwards[j], forwards[k])
    {
      for k := i + 1 to |forwards|
        invariant forall l :: i < l < k && Together(forwards[i], forwards[l]) ==> !Collide(forwards[i], forwards[l])
      {
        if Together(forwards[i], forwards[k]) && Collide(forwards[i], forwards[k]) {
          return Some(Collision(i, k));
        }
      }
    }
    return None;
  }

  /** A configuration passes exactly when it meets every requirement; a reported collision names two
      rules that must run together and cannot. */
  method Validate(c: Config, letters: set<char>) returns (problem: Option<Problem>)
    ensures problem.None? <==> Accepted(c, letters)
    ensures problem.Some? && problem.value.Collision? ==>
              && problem.value.first < problem.value.second < |c.forwards|
              && Together(c.forwards[problem.value.first], c.forwards[problem.value.second])
              && Collide(c.forwards[problem.value.first], c.forwards[problem.value.second])
  {
    if c.revision > MAX_REVISION {
      return Some(BadRevision);
    }
    if |c.servers| > MAX_SERVERS || |c.forwards| > MAX_FORWARDS {
      return Some(TooMany);
    }
    if c.schema != SCHEMA_VERSION {
      return Some(BadSchema);
    }
    if !RetrySound(c.retry) {
      return Some(BadRetry);
    }
    problem := CheckServers(c.servers, letters);
    if problem.Some? {
      return Some(BadServer);
    }
    problem := CheckForwards(c.servers, c.forwards, letters);
    if problem.Some? {
      return;
    }
    problem := CheckListeners(c.forwards);
  }
}
