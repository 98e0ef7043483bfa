/** Upgrading older configuration files in place (crates/fwm-core/src/model.rs, `Config::migrate`
    and `infer_legacy_groups`). */
module Migration {
  import opened Addresses
  import opened Basics
  import opened Configuration

  // ---------- names that look like members of a batch ----------

  /** `rsplit_once('-')`. */
  function SplitLast(name: string): Option<(string, string)> {
    if name == [] then None
    else
      var front, last := name[..|name| - 1], name[|name| - 1];
      if last == '-' then Some((front, []))
      else
        match SplitLast(front)
        case None => None
        case Some((prefix, suffix)) => Some((prefix, suffix + [last]))
  }

  function Decimal(n: nat): string {
    var digit := ['0' + (n % 10) as char];
    if n < 10 then digit else Decimal(n / 10) + digit
  }

  /** The group a rule would join: the part of its name before `-<port>`. */
  function Candidate(f: Forward, taken: set<string>, letters: set<char>): Option<string> {
    if f.group.Some? then None
    else
      match SplitLast(f.name)
      case None => None
      case Some((prefix, suffix)) =>
        if suffix == Decimal(f.tunnel.listen.port) && ValidName(prefix, letters) && prefix !in taken then Some(prefix) else None
  }

  /** Individual rules own these strings already. */
  function Taken(forwards: seq<Forward>): set<string> {
    Names(forwards) + Ids(forwards)
  }

  predicate Joins(forwards: seq<Forward>, letters: set<char>, name: string, i: nat)
    requires i < |forwards|
  {
    Candidate(forwards[i], Taken(forwards), letters) == Some(name)
  }

  predicate WouldBelong(forwards: seq<Forward>, letters: set<char>, name: string, i: nat)
    requires i < |forwards|
  {
    Joins(forwards, letters, name, i) || forwards[i].group == Some(name)
  }

  /** At least two rules want the group, and nobody in it would collide. */
  ghost predicate Inferred(forwards: seq<Forward>, letters: set<char>, name: string) {
    && (exists i, j :: 0 <= i < j < |forwards| && Joins(forwards, letters, name, i) && Joins(forwards, letters, name, j))
    && (forall i, j :: 0 <= i < j < |forwards| && WouldBelong(forwards, letters, name, i) && WouldBelong(forwards, letters, name, j)
          ==> !Collide(forwards[i], forwards[j]))
  }

  /** The group of one rule once every name has been decided but the pending ones. */
  ghost function GroupAfter(forwards: seq<Forward>, letters: set<char>, pending: set<string>, i: nat): Option<string>
    requires i < |forwards|
  {
    var wanted := Candidate(forwards[i], Taken(forwards), letters);
    if wanted.Some? && wanted.value !in pending && Inferred(forwards, letters, wanted.value) then wanted else forwards[i].group
  }

  ghost function InferSome(forwards: seq<Forward>, letters: set<char>, pending: set<string>): (r: seq<Forward>)
    ensures |r| == |forwards|
    ensures forall i :: 0 <= i < |r| ==> r[i] == forwards[i].(group := GroupAfter(forwards, letters, pending, i))
  {
    seq(|forwards|, i requires 0 <= i < |forwards| => forwards[i].(group := GroupAfter(forwards, letters, pending, i)))
  }

  ghost function InferGroups(forwards: seq<Forward>, letters: set<char>): seq<Forward> {
    InferSome(forwards, letters, {})
  }

  // ---------- the whole upgrade as a value ----------

  /** Version 1 had no recovery to opt out of. */
  function Upgrade(f: Forward, legacy: nat): Forward {
    if legacy == 1 && IsRemote(f.tunnel) then f.(verified := true, dedicated := true) else f
  }

  function UpgradeAll(forwards: seq<Forward>, legacy: nat): (r: seq<Forward>)
    ensures |r| == |forwards|
    ensures forall i :: 0 <= i < |r| ==> r[i] == Upgrade(forwards[i], legacy)
  {
    seq(|forwards|, i requires 0 <= i < |forwards| => Upgrade(forwards[i], legacy))
  }

  ghost function MigratedForwards(c: Config, letters: set<char>): seq<Forward> {
    var upgraded := UpgradeAll(c.forwards, c.schema);
    if c.schema < 3 then InferGroups(upgraded, letters) else upgraded
  }

  predicate Legacy(schema: nat) {
    1 <= schema <= 3
  }

  ghost function Migrated(c: Config, letters: set<char>): Config {
    if Legacy(c.schema)
    then c.(schema := SCHEMA_VERSION, forwards := MigratedForwards(c, letters),
            revision := if c.revision < U64_MAX then c.revision + 1 else c.revision)
    else c
  }

  // ---------- validity is preserved ----------

  lemma InferenceKeepsSets(forwards: seq<Forward>, letters: set<char>)
    ensures Ids(InferGroups(forwards, letters)) == Ids(forwards)
    ensures Names(InferGroups(forwards, letters)) == Names(forwards)
    ensures Taken(InferGroups(forwards, letters)) == Taken(forwards)
  {
    SameLabels(forwards, InferGroups(forwards, letters));
  }

  lemma SameLabels(before: seq<Forward>, after: seq<Forward>)
    requires |before| == |after|
    requires forall i :: 0 <= i < |before| ==> after[i].id == before[i].id && after[i].name == before[i].name
    ensures Ids(before) == Ids(after) && Names(before) == Names(after)
  {
    forall x ensures x in Ids(before) <==> x in Ids(after) {
      if x in Ids(before) { var i :| 0 <= i < |before| && before[i].id == x; assert after[i] in after; }
      if x in Ids(after) { var i :| 0 <= i < |after| && after[i].id == x; assert before[i] in before; }
    }
    forall x ensures x in Names(before) <==> x in Names(after) {
      if x in Names(before) { var i :| 0 <= i < |before| && before[i].name == x; assert after[i] in after; }
      if x in Names(after) { var i :| 0 <= i < |after| && after[i].name == x; assert before[i] in before; }
    }
  }

  lemma InferencePreservesNames(forwards: seq<Forward>, letters: set<char>)
    requires Distinct(forwards) && NamesApart(forwards)
    ensures Distinct(InferGroups(forwards, letters)) && NamesApart(InferGroups(forwards, letters))
  {
    var after := InferGroups(forwards, letters);
    InferenceKeepsSets(forwards, letters);
    NamesApartBySets(forwards);
    forall x | x in Groups(after) ensures x !in Names(after) && x !in Ids(after) {
      var i :| 0 <= i < |after| && after[i].group == Some(x);
      assert forwards[i] in forwards;
      if forwards[i].group == Some(x) {
        assert x in Groups(forwards);
      }
    }
    forall f | f in after && f.name in Ids(after) ensures f.name == f.id {
      var i :| 0 <= i < |after| && after[i] == f;
      assert forwards[i] in forwards;
    }
    NamesApartBySets(after);
  }

  lemma InferencePreservesListeners(forwards: seq<Forward>, letters: set<char>)
    requires ListenersSound(forwards)
    ensures ListenersSound(InferGroups(forwards, letters))
  {
    var after := InferGroups(forwards, letters);
    forall i, j | 0 <= i < j < |after| && Together(after[i], after[j]) ensures !Collide(after[i], after[j]) {
      if !Together(forwards[i], forwards[j]) {
        var name := after[i].group.value;
        assert WouldBelong(forwards, letters, name, i) && WouldBelong(forwards, letters, name, j);
        assert Inferred(forwards, letters, name);
      }
      assert !Collide(forwards[i], forwards[j]);
    }
  }

  lemma InferencePreservesForwards(servers: seq<Server>, forwards: seq<Forward>, letters: set<char>)
    requires ForwardsSound(servers, forwards, letters)
    ensures ForwardsSound(servers, InferGroups(forwards, letters), letters)
  {
    var after := InferGroups(forwards, letters);
    InferencePreservesNames(forwards, letters);
    InferencePreservesListeners(forwards, letters);
    forall f | f in after ensures ForwardSound(servers, f, letters) {
      var i :| 0 <= i < |after| && after[i] == f;
      assert forwards[i] in forwards;
    }
  }

  lemma UpgradePreservesForwards(servers: seq<Server>, forwards: seq<Forward>, letters: set<char>, legacy: nat)
    requires ForwardsSound(servers, forwards, letters)
    ensures ForwardsSound(servers, UpgradeAll(forwards, legacy), letters)
  {
    var after := UpgradeAll(forwards, legacy);
    forall f | f in after ensures ForwardSound(servers, f, letters) {
      var i :| 0 <= i < |after| && after[i] == f;
      assert forwards[i] in forwards;
    }
    UpgradePreservesNames(forwards, legacy);
    forall i, j | 0 <= i < j < |after| && Together(after[i], after[j]) ensures !Collide(after[i], after[j]) {
      assert !Collide(forwards[i], forwards[j]);
    }
  }

  lemma UpgradePreservesNames(forwards: seq<Forward>, legacy: nat)
    requires Distinct(forwards) && NamesApart(forwards)
    ensures Distinct(UpgradeAll(forwards, legacy)) && NamesApart(UpgradeAll(forwards, legacy))
  {
    var after := UpgradeAll(forwards, legacy);
    SameLabels(forwards, after);
    NamesApartBySets(forwards);
    forall x | x in Groups(after) ensures x in Groups(forwards) {
      var i :| 0 <= i < |after| && after[i].group == Some(x);
      assert forwards[i] in forwards;
    }
    forall f | f in after && f.name in Ids(after) ensures f.name == f.id {
      var i :| 0 <= i < |after| && after[i] == f;
      assert forwards[i] in forwards;
    }
    NamesApartBySets(after);
  }

  /** A legacy configuration that met every requirement but the version still does after the upgrade,
      and is then accepted unless its revision is beyond the limit. */
  lemma MigrationPreservesSoundness(c: Config, letters: set<char>)
    requires Sound(c, letters)
    ensures Sound(Migrated(c, letters), letters)
    ensures Legacy(c.schema) && c.revision < MAX_REVISION ==> Accepted(Migrated(c, letters), letters)
  {
    if Legacy(c.schema) {
      UpgradePreservesForwards(c.servers, c.forwards, letters, c.schema);
      if c.schema < 3 {
        InferencePreservesForwards(c.servers, UpgradeAll(c.forwards, c.schema), letters);
      }
    }
  }

  /** What an upgrade leaves alone: everything the user chose. A group is only ever added, and only
      one that is a proper prefix of the rule's own name. The revision rises by one with every upgrade,
      if there is a number left; what is current already stays as it is. */
  lemma MigrationKeepsIntent(c: Config, letters: set<char>)
    ensures var m := Migrated(c, letters);
            && m.servers == c.servers && m.retry == c.retry && |m.forwards| == |c.forwards|
            && forall i :: 0 <= i < |c.forwards| ==>
                 && m.forwards[i].(group := c.forwards[i].group, verified := c.forwards[i].verified, dedicated := c.forwards[i].dedicated) == c.forwards[i]
                 && (m.forwards[i].group != c.forwards[i].group ==>
                       c.forwards[i].group.None? && m.forwards[i].group.Some? && m.forwards[i].group.value < c.forwards[i].name)
                 && (c.schema == 1 && IsRemote(c.forwards[i].tunnel) ==> m.forwards[i].verified && m.forwards[i].dedicated)
                 && (c.schema != 1 || !IsRemote(c.forwards[i].tunnel) ==>
                       m.forwards[i].verified == c.forwards[i].verified && m.forwards[i].dedicated == c.forwards[i].dedicated)
    ensures Legacy(c.schema) ==>
              && Migrated(c, letters).schema == SCHEMA_VERSION
              && (c.revision < U64_MAX ==> Migrated(c, letters).revision == c.revision + 1)
              && (c.revision >= U64_MAX ==> Migrated(c, letters).revision == c.revision)
    ensures !Legacy(c.schema) ==> Migrated(c, letters) == c
    ensures Migrated(Migrated(c, letters), letters) == Migrated(c, letters)
  {
    forall i | 0 <= i < |c.forwards| ensures Candidate(Upgrade(c.forwards[i], c.schema), Taken(UpgradeAll(c.forwards, c.schema)), letters).Some? ==>
                Candidate(Upgrade(c.forwards[i], c.schema), Taken(UpgradeAll(c.forwards, c.schema)), letters).value < c.forwards[i].name
    {
      SplitRebuilds(c.forwards[i].name);
    }
  }

  lemma {:induction false} SplitRebuilds(name: string)
    ensures SplitLast(name).Some? ==>
              && name == SplitLast(name).value.0 + ['-'] + SplitLast(name).value.1
              && '-' !in SplitLast(name).value.1
    ensures SplitLast(name).None? ==> '-' !in name
  {
    if name != [] {
      var front := name[..|name| - 1];
      assert name == front + [name[|name| - 1]];
      SplitRebuilds(front);
    }
  }

  /** Inference settles in one pass: nothing that was left out wants in afterwards. */
  lemma InferenceIsStable(forwards: seq<Forward>, letters: set<char>)
    ensures InferGroups(InferGroups(forwards, letters), letters) == InferGroups(forwards, letters)
  {
    var once := InferGroups(forwards, letters);
    InferenceKeepsSets(forwards, letters);
    forall i | 0 <= i < |once| && Candidate(once[i], Taken(once), letters).Some?
      ensures !Inferred(once, letters, Candidate(once[i], Taken(once), letters).value)
    {
      StillRefused(forwards, letters, Candidate(once[i], Taken(once), letters).value, i);
    }
  }

  lemma StillRefused(forwards: seq<Forward>, letters: set<char>, name: string, i: nat)
    requires i < |forwards| && Joins(InferGroups(forwards, letters), letters, name, i)
    ensures !Inferred(InferGroups(forwards, letters), letters, name)
  {
    var once := InferGroups(forwards, letters);
    InferenceKeepsSets(forwards, letters);
    assert Joins(forwards, letters, name, i) && !Inferred(forwards, letters, name);
    forall k | 0 <= k < |forwards|
      ensures Joins(once, letters, name, k) <==> Joins(forwards, letters, name, k)
      ensures WouldBelong(once, letters, name, k) <==> WouldBelong(forwards, letters, name, k)
    {
    }
  }

  // ---------- which groups are inferred ----------

  predicate Digits(s: string) {
    forall i :: 0 <= i < |s| ==> '0' <= s[i] <= '9'
  }

  /** The number a string of digits stands for. */
  function Worth(digits: string): nat
    requires Digits(digits)
  {
    if digits == [] then 0 else Worth(digits[..|digits| - 1]) * 10 + (digits[|digits| - 1] as nat - '0' as nat)
  }

  /** How a number is written: its digits, without a leading zero. */
  predicate Writes(digits: string, n: nat) {
    && digits != [] && Digits(digits) && Worth(digits) == n
    && (digits[0] == '0' ==> |digits| == 1)
  }

  lemma {:induction false} DecimalWrites(n: nat)
    ensures Writes(Decimal(n), n)
    decreases n
  {
    var digit := '0' + (n % 10) as char;
    if n < 10 {
      assert [digit][..0] == [];
    } else {
      DecimalWrites(n / 10);
      assert Decimal(n)[..|Decimal(n)| - 1] == Decimal(n / 10);
      assert Worth(Decimal(n / 10)) > 0;
    }
  }

  lemma WorthOfFront(digits: string)
    requires digits != [] && Digits(digits)
    ensures var front := digits[..|digits| - 1];
            && Digits(front)
            && Worth(digits) / 10 == Worth(front) && Worth(digits) % 10 == digits[|digits| - 1] as nat - '0' as nat
  {
  }

  lemma {:induction false} NoLeadingZeroMeansMore(digits: string)
    requires digits != [] && Digits(digits) && digits[0] != '0'
    ensures Worth(digits) > 0
    decreases |digits|
  {
    if |digits| > 1 {
      NoLeadingZeroMeansMore(digits[..|digits| - 1]);
    } else {
      assert digits[..0] == [];
    }
  }

  /** There is no other way to write it. */
  lemma {:induction false} WritingIsUnique(digits: string, n: nat)
    requires Writes(digits, n)
    ensures digits == Decimal(n)
    decreases |digits|
  {
    var front, last := digits[..|digits| - 1], digits[|digits| - 1];
    assert digits == front + [last];
    WorthOfFront(digits);
    assert last == '0' + (n % 10) as char;
    if front == [] {
      assert Worth(front) == 0;
    } else {
      assert digits[0] != '0';
      NoLeadingZeroMeansMore(front);
      WritingIsUnique(front, n / 10);
    }
  }

  lemma {:induction false} SplitsThere(prefix: string, suffix: string)
    requires '-' !in suffix
    ensures SplitLast(prefix + ['-'] + suffix) == Some((prefix, suffix))
    decreases |suffix|
  {
    var name := prefix + ['-'] + suffix;
    if suffix == [] {
      assert name == prefix + ['-'] && name[..|name| - 1] == prefix;
    } else {
      var front := suffix[..|suffix| - 1];
      assert suffix == front + [suffix[|suffix| - 1]];
      assert name[..|name| - 1] == prefix + ['-'] + front;
      SplitsThere(prefix, front);
    }
  }

  /** A rule without a group whose name is this prefix, a hyphen and its own port. */
  ghost predicate NamedFor(f: Forward, prefix: string) {
    f.group.None? && exists digits :: Writes(digits, f.tunnel.listen.port) && f.name == prefix + ['-'] + digits
  }

  lemma CandidateIsNamed(f: Forward, taken: set<string>, letters: set<char>, prefix: string)
    ensures Candidate(f, taken, letters) == Some(prefix) <==> NamedFor(f, prefix) && ValidName(prefix, letters) && prefix !in taken
  {
    hide ValidName, Writes;
    var port := f.tunnel.listen.port;
    DecimalWrites(port);
    SplitRebuilds(f.name);
    if NamedFor(f, prefix) {
      var digits :| Writes(digits, port) && f.name == prefix + ['-'] + digits;
      WritingIsUnique(digits, port);
      NoHyphen(digits, port);
      SplitsThere(prefix, digits);
    }
  }

  lemma NoHyphen(digits: string, n: nat)
    requires Writes(digits, n)
    ensures '-' !in digits
  {
  }

  ghost predicate Belongs(f: Forward, group: string) {
    NamedFor(f, group) || f.group == Some(group)
  }

  /** A rule without a group gets this one exactly if its name is the group and its port, another rule is
      named in the same way, the group is a good name that nobody goes by, and no two rules that would be
      in it collide. */
  lemma InferenceIsExact(forwards: seq<Forward>, letters: set<char>, i: nat, group: string)
    requires i < |forwards| && forwards[i].group.None?
    ensures InferGroups(forwards, letters)[i].group == Some(group) <==>
              && NamedFor(forwards[i], group) && ValidName(group, letters)
              && (forall f :: f in forwards ==> f.name != group && f.id != group)
              && (exists j :: 0 <= j < |forwards| && j != i && NamedFor(forwards[j], group))
              && (forall a, b :: 0 <= a < b < |forwards| && Belongs(forwards[a], group) && Belongs(forwards[b], group) ==>
                    !Collide(forwards[a], forwards[b]))
  {
    hide ValidName, Collide, Candidate, NamedFor;
    forall j | 0 <= j < |forwards|
      ensures Joins(forwards, letters, group, j) <==> NamedFor(forwards[j], group) && ValidName(group, letters) && group !in Taken(forwards)
    {
      CandidateIsNamed(forwards[j], Taken(forwards), letters, group);
    }
    assert group !in Taken(forwards) <==> forall f :: f in forwards ==> f.name != group && f.id != group;
    if Joins(forwards, letters, group, i) {
      forall j | 0 <= j < |forwards| ensures WouldBelong(forwards, letters, group, j) <==> Belongs(forwards[j], group) {
      }
    }
  }

  // ---------- in place ----------

  /** A configuration file being loaded. */
  class Document {
    var schema: nat
    var revision: nat
    var retry: Retry
    var servers: seq<Server>
    var forwards: seq<Forward>

    function Value(): Config
      reads this
    {
      Config(schema, revision, retry, servers, forwards)
    }

    constructor (c: Config)
      ensures Value() == c
    {
      schema, revision, retry, servers, forwards := c.schema, c.revision, c.retry, c.servers, c.forwards;
    }

    /** Err leaves a document behind that already calls itself current but was not counted as a revision. */
    method Migrate(letters: set<char>) returns (changed: Result<bool, string>)
      modifies this
      ensures Value() == Migrated(old(Value()), letters)
      ensures changed == if old(schema) == SCHEMA_VERSION then Ok(false)
                         else if !Legacy(old(schema)) then Err("unsupported schema version")
                         else if old(revision) < U64_MAX then Ok(true)
                         else Err("configuration revision exhausted during migration")
      ensures changed == Ok(true) <==> revision == old(revision) + 1
      ensures changed != Ok(true) <==> revision == old(revision)
    {
      if schema == SCHEMA_VERSION {
        return Ok(false);
      }
      if !Legacy(schema) {
        return Err("unsupported schema version");
      }
      var legacy := schema;
      UpgradeEach(legacy);
      if legacy < 3 {
        InferLegacyGroups(letters);
      }
      schema := SCHEMA_VERSION;
      if revision >= U64_MAX {
        return Err("configuration revision exhausted during migration");
      }
      revision := revision + 1;
      return Ok(true);
    }

    method UpgradeEach(legacy: nat)
      modifies this`forwards
      ensures forwards == UpgradeAll(old(forwards), legacy)
    {
      for i := 0 to |forwards|
        invariant |forwards| == |old(forwards)|
        invariant forall j :: 0 <= j < i ==> forwards[j] == Upgrade(old(forwards)[j], legacy)
        invariant forall j :: i <= j < |forwards| ==> forwards[j] == old(forwards)[j]
      {
        if legacy == 1 && IsRemote(forwards[i].tunnel) {
          forwards := forwards[i := forwards[i].(verified := true, dedicated := true)];
        }
      }
    }

    /** Group after group: collect, look for collisions, assign. */
    method InferLegacyGroups(letters: set<char>)
      modifies this`forwards
      ensures forwards == InferGroups(old(forwards), letters)
    {
      ghost var original := forwards;
      var batches := CollectBatches(forwards, letters);
      var pending := batches.Keys;
      NothingDecided(original, letters, pending);
      while pending != {}
        invariant pending <= batches.Keys
        invariant forwards == InferSome(original, letters, pending)
        decreases |pending|
      {
        var name :| name in pending;
        ghost var before := forwards;
        if |batches[name]| > 1 {
          var grouped := CollectGrouped(forwards, batches[name], name);
          var conflicts := AnyCollision(forwards, grouped);
          DecideName(original, letters, pending, name, batches[name], grouped);
          if !conflicts {
            Assign(batches[name], name);
          }
        } else {
          DecideLoner(original, letters, name, batches[name]);
        }
        NextName(original, letters, pending, name, forwards, batches[name]);
        pending := pending - {name};
      }
    }

    method Assign(members: seq<nat>, name: string)
      requires IndexList(members, |forwards|)
      modifies this`forwards
      ensures |forwards| == |old(forwards)|
      ensures forall i :: 0 <= i < |forwards| ==>
                forwards[i] == if i in members then old(forwards)[i].(group := Some(name)) else old(forwards)[i]
    {
      for k := 0 to |members|
        invariant |forwards| == |old(forwards)|
        invariant forall i :: 0 <= i < |forwards| ==>
                    forwards[i] == if i in members[..k] then old(forwards)[i].(group := Some(name)) else old(forwards)[i]
      {
        forwards := forwards[members[k] := forwards[members[k]].(group := Some(name))];
        assert members[..k + 1] == members[..k] + [members[k]];
      }
      assert members[..|members|] == members;
    }
  }

  /** Increasing positions below a limit. */
  predicate IndexList(list: seq<nat>, limit: nat) {
    && (forall k :: 0 <= k < |list| ==> list[k] < limit)
    && (forall k, l :: 0 <= k < l < |list| ==> list[k] < list[l])
  }

  ghost function Wishes(forwards: seq<Forward>, letters: set<char>): (r: seq<Option<string>>)
    ensures |r| == |forwards|
    ensures forall i :: 0 <= i < |r| ==> r[i] == Candidate(forwards[i], Taken(forwards), letters)
  {
    seq(|forwards|, i requires 0 <= i < |forwards| => Candidate(forwards[i], Taken(forwards), letters))
  }

  /** Every name wished for before `limit`, with exactly the positions that wish for it. */
  predicate Collected(wishes: seq<Option<string>>, batches: map<string, seq<nat>>, limit: nat)
    requires limit <= |wishes|
  {
    && (forall name :: name in batches ==> IndexList(batches[name], limit))
    && (forall name, i :: name in batches && i in batches[name] ==> i < limit && wishes[i] == Some(name))
    && (forall i :: 0 <= i < limit && wishes[i].Some? ==> wishes[i].value in batches && i in batches[wishes[i].value])
  }

  method CollectBatches(forwards: seq<Forward>, letters: set<char>) returns (batches: map<string, seq<nat>>)
    ensures Collected(Wishes(forwards, letters), batches, |forwards|)
  {
    var taken := Taken(forwards);
    ghost var wishes := Wishes(forwards, letters);
    batches := map[];
    for i := 0 to |forwards|
      invariant Collected(wishes, batches, i)
    {
      var wanted := Candidate(forwards[i], taken, letters);
      if wanted.Some? {
        CollectedGrows(wishes, batches, i, wanted.value);
        batches := batches[wanted.value := (if wanted.value in batches then batches[wanted.value] else []) + [i]];
      }
    }
  }

  lemma CollectedGrows(wishes: seq<Option<string>>, batches: map<string, seq<nat>>, i: nat, name: string)
    requires i < |wishes| && Collected(wishes, batches, i) && wishes[i] == Some(name)
    ensures Collected(wishes, batches[name := (if name in batches then batches[name] else []) + [i]], i + 1)
  {
    var members := if name in batches then batches[name] else [];
    assert forall j :: j in members + [i] <==> j in members || j == i;
  }

  method CollectGrouped(forwards: seq<Forward>, members: seq<nat>, name: string) returns (grouped: seq<nat>)
    ensures IndexList(grouped, |forwards|)
    ensures forall i :: i in grouped <==> 0 <= i < |forwards| && (i in members || forwards[i].group == Some(name))
  {
    grouped := [];
    for i := 0 to |forwards|
      invariant IndexList(grouped, i)
      invariant forall j :: j in grouped <==> 0 <= j < i && (j in members || forwards[j].group == Some(name))
    {
      if i in members || forwards[i].group == Some(name) {
        grouped := grouped + [i];
      }
    }
  }

  method AnyCollision(forwards: seq<Forward>, grouped: seq<nat>) returns (conflicts: bool)
    requires IndexList(grouped, |forwards|)
    ensures conflicts <==> exists i, j :: i in grouped && j in grouped && i < j && Collide(forwards[i], forwards[j])
  {
    for k := 0 to |grouped|
      invariant forall a, b :: 0 <= a < k && a < b < |grouped| ==> !Collide(forwards[grouped[a]], forwards[grouped[b]])
    {
      for l := k + 1 to |grouped|
        invariant forall b :: k < b < l ==> !Collide(forwards[grouped[k]], forwards[grouped[b]])
      {
        if Collide(forwards[grouped[k]], forwards[grouped[l]]) {
          return true;
        }
      }
    }
    return false;
  }

  // ---------- one name at a time ----------

  lemma NothingDecided(forwards: seq<Forward>, letters: set<char>, pending: set<string>)
    requires forall i :: 0 <= i < |forwards| ==>
               var wanted := Candidate(forwards[i], Taken(forwards), letters);
               wanted.Some? ==> wanted.value in pending
    ensures InferSome(forwards, letters, pending) == forwards
  {
  }

  lemma DecideLoner(forwards: seq<Forward>, letters: set<char>, name: string, members: seq<nat>)
    requires |members| <= 1 && forall i :: 0 <= i < |forwards| ==> (i in members <==> Joins(forwards, letters, name, i))
    ensures !Inferred(forwards, letters, name)
  {
  }

  lemma DecideName(forwards: seq<Forward>, letters: set<char>, pending: set<string>, name: string,
                   members: seq<nat>, grouped: seq<nat>)
    requires name in pending && |members| > 1 && IndexList(members, |forwards|) && IndexList(grouped, |forwards|)
    requires forall i :: 0 <= i < |forwards| ==> (i in members <==> Joins(forwards, letters, name, i))
    requires var now := InferSome(forwards, letters, pending);
             forall i :: i in grouped <==> 0 <= i < |now| && (i in members || now[i].group == Some(name))
    ensures var now := InferSome(forwards, letters, pending);
            Inferred(forwards, letters, name) <==> !exists i, j :: i in grouped && j in grouped && i < j && Collide(now[i], now[j])
  {
    var now := InferSome(forwards, letters, pending);
    assert members[0] in members && members[1] in members;
    forall i | 0 <= i < |forwards| ensures i in grouped <==> WouldBelong(forwards, letters, name, i) {
    }
    forall i, j | 0 <= i < j < |forwards| ensures Collide(now[i], now[j]) <==> Collide(forwards[i], forwards[j]) {
    }
  }

  lemma NextName(forwards: seq<Forward>, letters: set<char>, pending: set<string>, name: string,
                 after: seq<Forward>, members: seq<nat>)
    requires name in pending && |after| == |forwards|
    requires forall i :: 0 <= i < |forwards| ==> (i in members <==> Joins(forwards, letters, name, i))
    requires var before := InferSome(forwards, letters, pending);
             forall i :: 0 <= i < |after| ==>
               after[i] == if Inferred(forwards, letters, name) && i in members then before[i].(group := Some(name)) else before[i]
    ensures after == InferSome(forwards, letters, pending - {name})
  {
  }
}
