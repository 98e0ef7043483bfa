/** What a selector string means (crates/fwm-core/src/model.rs, `select_forwards` and its kin;
    crates/fwm-core/src/selection.rs). */
module Selection {
  import opened Basics
  import opened Configuration

  datatype Selector = All | ByServer(selector: string) | ByForward(selector: string) | ByGroup(group: string)

  function FindId(forwards: seq<Forward>, id: string): Option<Forward> {
    if forwards == [] then None else if forwards[0].id == id then Some(forwards[0]) else FindId(forwards[1..], id)
  }

  function FindName(forwards: seq<Forward>, name: string): Option<Forward> {
    if forwards == [] then None else if forwards[0].name == name then Some(forwards[0]) else FindName(forwards[1..], name)
  }

  function FindServerId(servers: seq<Server>, id: string): Option<Server> {
    if servers == [] then None else if servers[0].id == id then Some(servers[0]) else FindServerId(servers[1..], id)
  }

  function FindServerName(servers: seq<Server>, name: string): Option<Server> {
    if servers == [] then None else if servers[0].name == name then Some(servers[0]) else FindServerName(servers[1..], name)
  }

  /** An id wins over a name. */
  function FindForward(c: Config, selector: string): Option<Forward> {
    var found := FindId(c.forwards, selector);
    if found.Some? then found else FindName(c.forwards, selector)
  }

  function FindServer(c: Config, selector: string): Option<Server> {
    var found := FindServerId(c.servers, selector);
    if found.Some? then found else FindServerName(c.servers, selector)
  }

  predicate References(f: Forward, server: string) {
    f.server == server || (f.tunnel.Relay? && f.tunnel.targetServer == server)
  }

  predicate Picked(f: Forward, c: Config, s: Selector) {
    match s
    case All => true
    case ByServer(selector) => FindServer(c, selector).Some? && References(f, FindServer(c, selector).value.id)
    case ByForward(selector) => if FindForward(c, selector).Some? then f == FindForward(c, selector).value else f.group == Some(selector)
    case ByGroup(group) => f.group == Some(group)
  }

  function AllIds(forwards: seq<Forward>): seq<string> {
    if forwards == [] then [] else [forwards[0].id] + AllIds(forwards[1..])
  }

  function GroupIds(forwards: seq<Forward>, group: string): seq<string> {
    if forwards == [] then []
    else (if forwards[0].group == Some(group) then [forwards[0].id] else []) + GroupIds(forwards[1..], group)
  }

  function ServerIds(forwards: seq<Forward>, server: string): seq<string> {
    if forwards == [] then []
    else (if References(forwards[0], server) then [forwards[0].id] else []) + ServerIds(forwards[1..], server)
  }

  function SelectGroup(c: Config, group: string): Result<seq<string>, ()> {
    var ids := GroupIds(c.forwards, group);
    if ids == [] then Err(()) else Ok(ids)
  }

  function SelectForwards(c: Config, selector: string): Result<seq<string>, ()> {
    var found := FindForward(c, selector);
    if found.Some? then Ok([found.value.id]) else SelectGroup(c, selector)
  }

  function SelectServer(c: Config, selector: string): Result<seq<string>, ()> {
    var found := FindServer(c, selector);
    if found.None? then Err(()) else Ok(ServerIds(c.forwards, found.value.id))
  }

  function Resolve(c: Config, s: Selector): Result<seq<string>, ()> {
    match s
    case All => Ok(AllIds(c.forwards))
    case ByServer(selector) => SelectServer(c, selector)
    case ByForward(selector) => SelectForwards(c, selector)
    case ByGroup(group) => SelectGroup(c, group)
  }

  // ---------- finding ----------

  predicate Answers(f: Forward, selector: string) {
    f.id == selector || f.name == selector
  }

  lemma {:induction false} FindIdFinds(forwards: seq<Forward>, id: string)
    ensures FindId(forwards, id).Some? ==> FindId(forwards, id).value in forwards && FindId(forwards, id).value.id == id
    ensures FindId(forwards, id).None? ==> forall f :: f in forwards ==> f.id != id
  {
    if forwards != [] {
      FindIdFinds(forwards[1..], id);
    }
  }

  lemma {:induction false} FindNameFinds(forwards: seq<Forward>, name: string)
    ensures FindName(forwards, name).Some? ==> FindName(forwards, name).value in forwards && FindName(forwards, name).value.name == name
    ensures FindName(forwards, name).None? ==> forall f :: f in forwards ==> f.name != name
  {
    if forwards != [] {
      FindNameFinds(forwards[1..], name);
    }
  }

  lemma FindForwardFinds(c: Config, selector: string)
    ensures FindForward(c, selector).Some? ==> FindForward(c, selector).value in c.forwards && Answers(FindForward(c, selector).value, selector)
    ensures FindForward(c, selector).None? ==> forall f :: f in c.forwards ==> !Answers(f, selector)
  {
    FindIdFinds(c.forwards, selector);
    FindNameFinds(c.forwards, selector);
  }

  lemma {:induction false} FindServerIdFinds(servers: seq<Server>, id: string)
    ensures FindServerId(servers, id).Some? ==> FindServerId(servers, id).value in servers && FindServerId(servers, id).value.id == id
    ensures FindServerId(servers, id).None? ==> forall s :: s in servers ==> s.id != id
  {
    if servers != [] {
      FindServerIdFinds(servers[1..], id);
    }
  }

  lemma {:induction false} FindServerNameFinds(servers: seq<Server>, name: string)
    ensures FindServerName(servers, name).Some? ==> FindServerName(servers, name).value in servers && FindServerName(servers, name).value.name == name
    ensures FindServerName(servers, name).None? ==> forall s :: s in servers ==> s.name != name
  {
    if servers != [] {
      FindServerNameFinds(servers[1..], name);
    }
  }

  // ---------- one meaning ----------

  /** In a sound configuration a string names at most one rule and, if it does, no group. */
  lemma AnswerIsUnique(c: Config, letters: set<char>, selector: string, f: Forward, g: Forward)
    requires Sound(c, letters) && f in c.forwards && g in c.forwards && Answers(f, selector)
    ensures Answers(g, selector) ==> f == g
    ensures g.group != Some(selector)
  {
    var i :| 0 <= i < |c.forwards| && c.forwards[i] == f;
    var j :| 0 <= j < |c.forwards| && c.forwards[j] == g;
  }

  /** In a sound configuration a string names at most one server. */
  lemma ServerIsUnique(c: Config, letters: set<char>, selector: string, s: Server)
    requires Sound(c, letters) && s in c.servers && (s.id == selector || s.name == selector)
    ensures FindServer(c, selector) == Some(s)
  {
    FindServerIdFinds(c.servers, selector);
    FindServerNameFinds(c.servers, selector);
    var t := FindServer(c, selector).value;
    var i :| 0 <= i < |c.servers| && c.servers[i] == s;
    var j :| 0 <= j < |c.servers| && c.servers[j] == t;
  }

  // ---------- what the lists contain ----------

  predicate IdsDistinct(forwards: seq<Forward>) {
    forall i, j :: 0 <= i < j < |forwards| ==> forwards[i].id != forwards[j].id
  }

  /** `ids` lists, once each, the ids of the rules in `members`. */
  ghost predicate Lists(ids: seq<string>, forwards: seq<Forward>, members: set<Forward>) {
    && (forall x :: x in ids <==> exists f :: f in forwards && f in members && f.id == x)
    && (forall i, j :: 0 <= i < j < |ids| ==> ids[i] != ids[j])
  }

  /** Prepending a rule, or skipping it, keeps the list exact. */
  lemma ListsStep(ids: seq<string>, forwards: seq<Forward>, members: set<Forward>)
    requires forwards != [] && IdsDistinct(forwards) && Lists(ids, forwards[1..], members)
    ensures Lists((if forwards[0] in members then [forwards[0].id] else []) + ids, forwards, members)
  {
    var more := (if forwards[0] in members then [forwards[0].id] else []) + ids;
    forall x ensures x in more <==> exists f :: f in forwards && f in members && f.id == x {
      if f :| f in forwards && f in members && f.id == x {
        assert f == forwards[0] || f in forwards[1..];
      }
    }
    if forwards[0] in members {
      assert forwards[0].id !in ids;
    }
  }

  lemma {:induction false} GroupIdsExact(forwards: seq<Forward>, group: string, members: set<Forward>)
    requires IdsDistinct(forwards) && forall f :: f in forwards ==> (f in members <==> f.group == Some(group))
    ensures Lists(GroupIds(forwards, group), forwards, members)
  {
    if forwards != [] {
      GroupIdsExact(forwards[1..], group, members);
      ListsStep(GroupIds(forwards[1..], group), forwards, members);
      assert forwards[0] in forwards;
    }
  }

  lemma {:induction false} ServerIdsExact(forwards: seq<Forward>, server: string, members: set<Forward>)
    requires IdsDistinct(forwards) && forall f :: f in forwards ==> (f in members <==> References(f, server))
    ensures Lists(ServerIds(forwards, server), forwards, members)
  {
    if forwards != [] {
      ServerIdsExact(forwards[1..], server, members);
      ListsStep(ServerIds(forwards[1..], server), forwards, members);
      assert forwards[0] in forwards;
    }
  }

  lemma {:induction false} AllIdsExact(forwards: seq<Forward>, members: set<Forward>)
    requires IdsDistinct(forwards) && forall f :: f in forwards ==> f in members
    ensures Lists(AllIds(forwards), forwards, members)
  {
    if forwards != [] {
      AllIdsExact(forwards[1..], members);
      ListsStep(AllIds(forwards[1..]), forwards, members);
      assert forwards[0] in forwards;
    }
  }

  /** Whatever resolves, resolves to exactly the rules meant, each once. */
  lemma ResolveIsExact(c: Config, letters: set<char>, s: Selector)
    requires Sound(c, letters)
    ensures Resolve(c, s).Ok? ==> Lists(Resolve(c, s).value, c.forwards, set f | f in c.forwards && Picked(f, c, s))
    ensures Resolve(c, s).Err? ==> forall f :: f in c.forwards ==> !Picked(f, c, s)
  {
    var members := set f | f in c.forwards && Picked(f, c, s);
    match s {
      case All => AllIdsExact(c.forwards, members);
      case ByServer(selector) =>
        if FindServer(c, selector).Some? {
          ServerIdsExact(c.forwards, FindServer(c, selector).value.id, members);
        }
      case ByForward(selector) =>
        FindForwardFinds(c, selector);
        if FindForward(c, selector).None? {
          GroupIdsExact(c.forwards, selector, members);
          NoneListed(c.forwards, GroupIds(c.forwards, selector), members);
        }
      case ByGroup(group) =>
        GroupIdsExact(c.forwards, group, members);
        NoneListed(c.forwards, GroupIds(c.forwards, group), members);
    }
  }

  lemma NoneListed(forwards: seq<Forward>, ids: seq<string>, members: set<Forward>)
    requires Lists(ids, forwards, members)
    ensures ids == [] ==> forall f :: f in forwards ==> f !in members
  {
    forall f | f in forwards && f in members ensures ids != [] {
      assert f.id in ids;
    }
  }

  lemma {:induction false} EmptyGroup(forwards: seq<Forward>, group: string)
    requires forall f :: f in forwards ==> f.group != Some(group)
    ensures GroupIds(forwards, group) == []
  {
    if forwards != [] {
      assert forwards[0] in forwards;
      EmptyGroup(forwards[1..], group);
    }
  }

  /** A rule selector means the one rule it names, or else the members of the group it names. */
  lemma SelectorHasOneMeaning(c: Config, letters: set<char>, selector: string)
    requires Sound(c, letters)
    ensures forall f :: f in c.forwards && Answers(f, selector) ==>
              Resolve(c, ByForward(selector)) == Ok([f.id]) && Resolve(c, ByGroup(selector)).Err?
    ensures (forall f :: f in c.forwards ==> !Answers(f, selector)) ==> Resolve(c, ByForward(selector)) == Resolve(c, ByGroup(selector))
  {
    FindForwardFinds(c, selector);
    forall f | f in c.forwards && Answers(f, selector)
      ensures Resolve(c, ByForward(selector)) == Ok([f.id]) && Resolve(c, ByGroup(selector)).Err?
    {
      AnswerIsUnique(c, letters, selector, f, FindForward(c, selector).value);
      forall g | g in c.forwards ensures g.group != Some(selector) {
        AnswerIsUnique(c, letters, selector, f, g);
      }
      EmptyGroup(c.forwards, selector);
    }
  }
}
