/**
  What the datasource service remembers between calls: configurations, cached schemas and recent
  failures; and how it turns fetched columns into the listing of the authorised tables.

  One non-decreasing clock in seconds stands for both clocks of the source. What a remote database
  answers, and when, is a parameter; calls are made one after the other.
 */
module DataSourceRuntime {
  import opened Text
  import opened Wrappers

  datatype TableEntry = TableEntry(schema: string, name: string, description: string, columns: seq<string>)

  datatype Config = Config(enabled: bool, database: string, tables: seq<TableEntry>)

  datatype Column = Column(schema: string, table: string, name: string, details: string)

  datatype TableInfo = TableInfo(schema: string, name: string, description: string, columns: seq<Column>)

  datatype Target = Target(schema: string, name: string)

  // ---------------------------------------------------------------- listing the authorised tables

  /** An entry without schema means the database's own. */
  function TargetOf(config: Config, entry: TableEntry): Target {
    Target(if entry.schema != "" then entry.schema else config.database, entry.name)
  }

  function Targets(config: Config, entries: seq<TableEntry>): seq<Target> {
    if entries == [] then []
    else
      var n := |entries| - 1;
      Targets(config, entries[..n]) + if entries[n].name == "" then [] else [TargetOf(config, entries[n])]
  }

  /** How many of the entries have a name. */
  function Named(entries: seq<TableEntry>): nat {
    if entries == [] then 0
    else Named(entries[..|entries| - 1]) + if entries[|entries| - 1].name == "" then 0 else 1
  }

  /**
    The tables asked for are those of the entries with a name, in their order, under the database's
    own schema if none is given.
   */
  lemma {:induction false} TargetsAre(config: Config, entries: seq<TableEntry>, i: nat)
    requires i < |entries| && entries[i].name != ""
    ensures |Targets(config, entries)| == Named(entries) && Named(entries[..i]) < Named(entries)
    ensures Targets(config, entries)[Named(entries[..i])] ==
            Target(if entries[i].schema == "" then config.database else entries[i].schema, entries[i].name)
    decreases |entries|
  {
    var n := |entries| - 1;
    TargetsAreNamed(config, entries[..n]);
    if i < n {
      TargetsAre(config, entries[..n], i);
      assert entries[..n][..i] == entries[..i] && entries[..n][i] == entries[i];
    }
  }

  lemma {:induction false} TargetsAreNamed(config: Config, entries: seq<TableEntry>)
    ensures |Targets(config, entries)| == Named(entries)
  {
    if entries == [] {
    } else {
      TargetsAreNamed(config, entries[..|entries| - 1]);
    }
  }

  predicate IsFor(entry: TableEntry, target: Target) {
    entry.schema == target.schema && entry.name == target.name
  }

  /** The first entry that spells out this schema and this name. */
  function FirstMatch(entries: seq<TableEntry>, target: Target): (r: Option<nat>)
    ensures r.Some? ==> r.value < |entries| && IsFor(entries[r.value], target)
    ensures r.Some? ==> forall i :: 0 <= i < r.value ==> !IsFor(entries[i], target)
    ensures r.None? ==> forall i :: 0 <= i < |entries| ==> !IsFor(entries[i], target)
  {
    if entries == [] then None
    else if IsFor(entries[0], target) then Some(0)
    else
      var r := FirstMatch(entries[1..], target);
      assert forall i :: 1 <= i < |entries| ==> entries[i] == entries[1..][i - 1];
      if r.None? then None else Some(r.value + 1)
  }

  predicate IsShown(config: Config, target: Target, column: Column) {
    var at := FirstMatch(config.tables, target);
    && column.schema == target.schema && column.table == target.name
    && (at.Some? && config.tables[at.value].columns != [] ==> column.name in config.tables[at.value].columns)
  }

  function Shown(config: Config, target: Target, columns: seq<Column>): (r: seq<Column>)
    ensures forall c :: c in r <==> c in columns && IsShown(config, target, c)
  {
    if columns == [] then []
    else
      var n := |columns| - 1;
      assert forall c :: c in columns <==> c in columns[..n] || c == columns[n];
      Shown(config, target, columns[..n]) + if IsShown(config, target, columns[n]) then [columns[n]] else []
  }

  /** The columns shown are those of the parts, in their order: none is repeated, dropped or moved. */
  lemma {:induction false} ShownKeepsOrder(config: Config, target: Target, some: seq<Column>, more: seq<Column>)
    ensures Shown(config, target, some + more) == Shown(config, target, some) + Shown(config, target, more)
  {
    hide Shown, IsShown;
    if more == [] {
      assert some + more == some;
      NothingIsShown(config, target);
    } else {
      var n := |more| - 1;
      ShownKeepsOrder(config, target, some, more[..n]);
      assert (some + more)[..|some| + n] == some + more[..n];
      ShownOfMore(config, target, some + more);
      ShownOfMore(config, target, more);
      assert (some + more)[|some| + n] == more[n];
    }
  }

  lemma NothingIsShown(config: Config, target: Target)
    ensures Shown(config, target, []) == []
  {
    hide IsShown;
  }

  lemma ShownOfMore(config: Config, target: Target, columns: seq<Column>)
    requires columns != []
    ensures
      var n := |columns| - 1;
      Shown(config, target, columns) ==
      Shown(config, target, columns[..n]) + if IsShown(config, target, columns[n]) then [columns[n]] else []
  {
    hide IsShown;
  }

  predicate IsFirstFor(entries: seq<TableEntry>, target: Target, i: nat) {
    i < |entries| && IsFor(entries[i], target) && forall j :: 0 <= j < i ==> !IsFor(entries[j], target)
  }

  function InfoOf(config: Config, target: Target, columns: seq<Column>): TableInfo {
    var at := FirstMatch(config.tables, target);
    TableInfo(target.schema, target.name,
              if at.Some? then config.tables[at.value].description else "", Shown(config, target, columns))
  }

  /** The description is that of the first entry that spells out schema and name, if there is one. */
  lemma DescriptionIs(config: Config, target: Target, columns: seq<Column>)
    ensures forall i: nat :: IsFirstFor(config.tables, target, i) ==>
              InfoOf(config, target, columns).description == config.tables[i].description
    ensures (forall i :: 0 <= i < |config.tables| ==> !IsFor(config.tables[i], target)) ==>
              InfoOf(config, target, columns).description == ""
  {
    hide Shown;
  }

  function Listing(config: Config, targets: seq<Target>, columns: seq<Column>): (r: seq<TableInfo>)
    ensures |r| == |targets|
    ensures forall i :: 0 <= i < |r| ==> r[i] == InfoOf(config, targets[i], columns)
  {
    seq(|targets|, i requires 0 <= i < |targets| => InfoOf(config, targets[i], columns))
  }

  /** The listing `schema_snapshot` builds from the columns a database returned. */
  method BuildListing(config: Config, targets: seq<Target>, columns: seq<Column>) returns (result: seq<TableInfo>)
    ensures result == Listing(config, targets, columns)
  {
    result := [];
    for i := 0 to |targets|
      invariant |result| == i
      invariant forall k :: 0 <= k < i ==> result[k] == InfoOf(config, targets[k], columns)
    {
      var shown: seq<Column> := [];
      for j := 0 to |columns|
        invariant shown == Shown(config, targets[i], columns[..j])
      {
        assert columns[..j + 1][..j] == columns[..j];
        if IsShown(config, targets[i], columns[j]) { shown := shown + [columns[j]]; }
      }
      assert columns[..|columns|] == columns;
      var at := FirstMatch(config.tables, targets[i]);
      var description := if at.Some? then config.tables[at.value].description else "";
      result := result + [TableInfo(targets[i].schema, targets[i].name, description, shown)];
    }
  }

  /** What validation guarantees: a database name, and no table entered twice. */
  predicate IsValidated(config: Config) {
    && config.database != ""
    && forall i, j :: 0 <= i < j < |config.tables| ==>
         !(config.tables[i].schema == config.tables[j].schema && config.tables[i].name == config.tables[j].name)
  }

  /**
    The entry whose description and column list are used for a table is its own entry exactly when
    that entry spells its schema out: one that leaves the schema to the default is never found.
   */
  lemma OwnEntryIsFoundIff(config: Config, i: nat)
    requires IsValidated(config) && i < |config.tables|
    ensures FirstMatch(config.tables, TargetOf(config, config.tables[i])) == Some(i) <==> config.tables[i].schema != ""
  {
  }

  /** Entry `j` is for the table of entry `i` and spells its schema out. */
  predicate SpellsOut(config: Config, i: nat, j: nat)
    requires i < |config.tables| && j < |config.tables|
  {
    config.tables[j].name == config.tables[i].name &&
    config.tables[j].schema == TargetOf(config, config.tables[i]).schema
  }

  /** The column list in force is that of the entry that spells the table out, whichever entry asked for it. */
  lemma ShownIff(config: Config, i: nat, columns: seq<Column>, c: Column)
    requires IsValidated(config) && i < |config.tables|
    ensures
      var target := TargetOf(config, config.tables[i]);
      c in Shown(config, target, columns) <==>
        && c in columns && c.schema == target.schema && c.table == target.name
        && forall j :: 0 <= j < |config.tables| && SpellsOut(config, i, j) && config.tables[j].columns != [] ==>
             c.name in config.tables[j].columns
  {
    var target := TargetOf(config, config.tables[i]);
    var at := FirstMatch(config.tables, target);
    if at.Some? {
      forall j | 0 <= j < |config.tables| && SpellsOut(config, i, j) ensures j == at.value {
      }
      assert SpellsOut(config, i, at.value);
    }
  }

  /** A list that lets through nothing beyond what the entry itself lists. */
  predicate IsWithin(columns: seq<string>, own: seq<string>) {
    columns != [] && forall name :: name in columns ==> name in own
  }

  /** Whatever the database returns, only columns on the entry's own list are shown. */
  ghost predicate OwnListHolds(config: Config, i: nat, columns: seq<Column>)
    requires i < |config.tables|
  {
    forall c :: c in Shown(config, TargetOf(config, config.tables[i]), columns) ==> c.name in config.tables[i].columns
  }

  /**
    An entry's own column list holds, for all columns a database may return, if and only if some entry
    that spells the table out has a list, and one within it. An entry with a schema is such an entry
    itself; one without a schema depends on another.
   */
  lemma OwnListHoldsIff(config: Config, i: nat)
    requires IsValidated(config) && i < |config.tables| && config.tables[i].columns != []
    ensures (forall columns :: OwnListHolds(config, i, columns)) <==>
            exists j :: 0 <= j < |config.tables| && SpellsOut(config, i, j)
                        && IsWithin(config.tables[j].columns, config.tables[i].columns)
    ensures config.tables[i].schema != "" ==> forall columns :: OwnListHolds(config, i, columns)
  {
    var own, target := config.tables[i].columns, TargetOf(config, config.tables[i]);
    if j :| 0 <= j < |config.tables| && SpellsOut(config, i, j) && IsWithin(config.tables[j].columns, own) {
      forall columns ensures OwnListHolds(config, i, columns) {
        forall c | c in Shown(config, target, columns) ensures c.name in own {
          ShownIff(config, i, columns, c);
        }
      }
    } else {
      var other := UnlistedName(config, i);
      var c := Column(target.schema, target.name, other, "");
      ShownIff(config, i, [c], c);
      assert !OwnListHolds(config, i, [c]);
    }
    if config.tables[i].schema != "" { assert SpellsOut(config, i, i) && IsWithin(own, own); }
  }

  /** A name that is not on the entry's own list, but on every list in force for its table. */
  lemma UnlistedName(config: Config, i: nat) returns (other: string)
    requires IsValidated(config) && i < |config.tables|
    requires forall j :: 0 <= j < |config.tables| && SpellsOut(config, i, j) ==>
               !IsWithin(config.tables[j].columns, config.tables[i].columns)
    ensures other !in config.tables[i].columns
    ensures forall j :: 0 <= j < |config.tables| && SpellsOut(config, i, j) && config.tables[j].columns != [] ==>
              other in config.tables[j].columns
  {
    if j :| 0 <= j < |config.tables| && SpellsOut(config, i, j) && config.tables[j].columns != [] {
      other :| other in config.tables[j].columns && other !in config.tables[i].columns;
    } else {
      other := LongerThanAll(config.tables[i].columns);
      assert forall name :: name in config.tables[i].columns ==> |name| < |other|;
    }
  }

  function LongerThanAll(names: seq<string>): (r: string)
    ensures forall name :: name in names ==> |name| < |r|
  {
    if names == [] then ""
    else
      var rest := LongerThanAll(names[1..]);
      assert forall name :: name in names <==> name == names[0] || name in names[1..];
      rest + names[0] + "x"
  }

  // ---------------------------------------------------------------- what is remembered

  type Id = string

  /** Both kinds of listings share one cache. */
  datatype Payload = Tables(tables: seq<string>) | Schema(infos: seq<TableInfo>)

  datatype Entry = Entry(at: int, payload: Payload)

  datatype Memory = Memory(configs: map<Id, Config>, cache: map<string, Entry>, failures: map<Id, int>)

  const CACHE_TTL_SECONDS := 900
  const SCHEMA_FAILURE_COOLDOWN := 60

  const COLUMNS := "cols:"

  function ColumnsKey(id: Id): string {
    COLUMNS + id
  }

  /** `[a-z][a-z0-9_]{0,63}`, with the line feed that `$` lets pass at the end. */
  predicate IsRuntimeId(id: Id) {
    && id != "" && 'a' <= id[0] <= 'z'
    && var n := if id[|id| - 1] == '\n' then |id| - 1 else |id|;
       n <= 64 && forall i :: 0 <= i < n ==> 'a' <= id[i] <= 'z' || '0' <= id[i] <= '9' || id[i] == '_'
  }

  /** A letter, and up to 63 letters, digits and underscores after it. */
  ghost predicate IsPlainId(id: Id) {
    && 1 <= |id| <= 64 && id[0] in LOWER
    && forall i :: 0 <= i < |id| ==> id[i] in LOWER || id[i] in DIGITS || id[i] == '_'
  }

  /** The accepted ids, character by character: one line feed at the end does no harm. */
  lemma RuntimeIdIff(id: Id)
    ensures IsRuntimeId(id) <==>
              IsPlainId(id) || (id != "" && id[|id| - 1] == '\n' && IsPlainId(id[..|id| - 1]))
  {
    forall i | 0 <= i < |id|
      ensures id[i] in LOWER <==> 'a' <= id[i] <= 'z'
      ensures id[i] in DIGITS <==> '0' <= id[i] <= '9'
    {
      InLower(id[i]);
      InDigits(id[i]);
    }
  }

  predicate IsStale(entry: Entry, now: int) {
    now - entry.at > CACHE_TTL_SECONDS
  }

  /** A stale entry is dropped when it is asked for. */
  function Recalling(m: Memory, key: string, now: int): (Memory, Option<Payload>) {
    if key !in m.cache then (m, None)
    else if IsStale(m.cache[key], now) then (m.(cache := m.cache - {key}), None)
    else (m, Some(m.cache[key].payload))
  }

  function Remembering(m: Memory, key: string, at: int, payload: Payload): Memory {
    m.(cache := m.cache[key := Entry(at, payload)])
  }

  predicate Usable(m: Memory, id: Id) {
    id in m.configs && m.configs[id].enabled
  }

  /** How a call for a listing went: `Refused` and `Broken` are exceptions, the latter after a contact. */
  datatype Answer = Cached(payload: Payload) | Made(payload: Payload, contacted: bool) | Refused | Broken {
    predicate Failed() {
      Refused? || Broken?
    }
  }

  /** What the database would answer, and when: None stands for any exception. */
  datatype Remote<T> = Remote(done: int, reply: Option<T>)

  function ListingTables(m: Memory, id: Id, refresh: bool, now: int, remote: Remote<seq<string>>): (Memory, Answer) {
    var (m1, hit) := if refresh then (m, None) else Recalling(m, id, now);
    if hit.Some? then (m1, Cached(hit.value))
    else if !Usable(m1, id) then (m1, Refused)
    else if remote.reply.None? then (m1, Broken)
    else (Remembering(m1, id, remote.done, Tables(remote.reply.value)), Made(Tables(remote.reply.value), true))
  }

  function ListingColumns(m: Memory, id: Id, refresh: bool, now: int, remote: Remote<seq<Column>>): (Memory, Answer) {
    var key := ColumnsKey(id);
    var (m1, hit) := if refresh then (m, None) else Recalling(m, key, now);
    if hit.Some? then (m1, Cached(hit.value))
    else if !Usable(m1, id) then (m1, Refused)
    else
      var config := m1.configs[id];
      var targets := Targets(config, config.tables);
      if targets == [] then (Remembering(m1, key, now, Schema([])), Made(Schema([]), false))
      else if remote.reply.None? then (m1, Broken)
      else
        var payload := Schema(Listing(config, targets, remote.reply.value));
        (Remembering(m1, key, remote.done, payload), Made(payload, true))
  }

  predicate Cooling(m: Memory, id: Id, now: int) {
    id in m.failures && now < m.failures[id]
  }

  /** One round of the loop of `prompt_block`. */
  function Prompting(m: Memory, id: Id, now: int, remote: Remote<seq<Column>>): (Memory, Answer) {
    if !Usable(m, id) || Cooling(m, id, now) then (m, Refused)
    else
      var (m1, answer) := ListingColumns(m.(failures := m.failures - {id}), id, false, now, remote);
      if answer.Failed() then (m1.(failures := m1.failures[id := remote.done + SCHEMA_FAILURE_COOLDOWN]), answer)
      else (m1, answer)
  }

  datatype Round = Round(now: int, remote: Remote<seq<Column>>)

  function PromptingAll(m: Memory, ids: seq<Id>, rounds: seq<Round>): (Memory, seq<(Id, Payload)>)
    requires |rounds| == |ids|
  {
    if ids == [] then (m, [])
    else
      var n := |ids| - 1;
      var (before, parts) := PromptingAll(m, ids[..n], rounds[..n]);
      var (after, answer) := Prompting(before, ids[n], rounds[n].now, rounds[n].remote);
      (after, if !answer.Failed() then parts + [(ids[n], answer.payload)] else parts)
  }

  function Collect(entries: seq<(Id, Config)>): map<Id, Config> {
    if entries == [] then map[]
    else
      var (id, config) := entries[|entries| - 1];
      var earlier := Collect(entries[..|entries| - 1]);
      if id == "" then earlier else earlier[id := config]
  }

  predicate IsLastOf(entries: seq<(Id, Config)>, i: nat, id: Id) {
    i < |entries| && entries[i].0 == id && forall j :: i < j < |entries| ==> entries[j].0 != id
  }

  /** The last of the entries with an id counts; entries without one are passed over. */
  lemma {:induction false} ConfigsAreLastGiven(entries: seq<(Id, Config)>, id: Id)
    ensures id in Collect(entries) <==> id != "" && exists i :: 0 <= i < |entries| && entries[i].0 == id
    ensures forall i: nat :: IsLastOf(entries, i, id) && id != "" ==>
              id in Collect(entries) && Collect(entries)[id] == entries[i].1
  {
    if entries == [] {
    } else {
      var n := |entries| - 1;
      ConfigsAreLastGiven(entries[..n], id);
      if i :| 0 <= i < |entries| && entries[i].0 == id && i < n { assert entries[..n][i].0 == id; }
      forall i: nat | IsLastOf(entries, i, id) && id != ""
        ensures id in Collect(entries) && Collect(entries)[id] == entries[i].1
      {
        if i < n {
          assert entries[n].0 != id;
          assert IsLastOf(entries[..n], i, id);
        }
      }
    }
  }

  function Reloading(entries: seq<(Id, Config)>): Memory {
    Memory(Collect(entries), map[], map[])
  }

  // ---------------------------------------------------------------- the objects

  class SchemaCache {
    var store: map<string, Entry>

    constructor ()
      ensures store == map[]
    {
      store := map[];
    }

    method Get(key: string, now: int) returns (payload: Option<Payload>)
      modifies this
      ensures forall configs, failures ::
                Recalling(Memory(configs, old(store), failures), key, now) ==
                    (Memory(configs, store, failures), payload)
      ensures payload == if key in old(store) && now - old(store)[key].at <= 900 then Some(old(store)[key].payload)
                         else None
      ensures store == if payload.None? then old(store) - {key} else old(store)
    {
      if key !in store {
        assert store - {key} == store;
        return None;
      }
      if now - store[key].at > CACHE_TTL_SECONDS {
        store := store - {key};
        return None;
      }
      payload := Some(store[key].payload);
    }

    method Set(key: string, payload: Payload, now: int)
      modifies this
      ensures store == old(store)[key := Entry(now, payload)]
    {
      store := store[key := Entry(now, payload)];
    }

    method Clear()
      modifies this
      ensures store == map[]
    {
      store := map[];
    }
  }

  class DataSourceService {
    var configs: map<Id, Config>
    const schemaCache: SchemaCache
    var schemaFailures: map<Id, int>

    function Contents(): Memory
      reads this, schemaCache
    {
      Memory(configs, schemaCache.store, schemaFailures)
    }

    constructor ()
      ensures Contents() == Memory(map[], map[], map[]) && fresh(schemaCache)
    {
      configs, schemaFailures := map[], map[];
      schemaCache := new SchemaCache();
    }

    method Reload(entries: seq<(Id, Config)>)
      modifies this, schemaCache
      ensures Contents() == Reloading(entries)
    {
      var newConfigs: map<Id, Config> := map[];
      for i := 0 to |entries|
        invariant newConfigs == Collect(entries[..i])
      {
        assert entries[..i + 1][..i] == entries[..i];
        var (id, config) := entries[i];
        if id != "" { newConfigs := newConfigs[id := config]; }
      }
      assert entries[..|entries|] == entries;
      configs, schemaFailures := newConfigs, map[];
      schemaCache.Clear();
    }

    method RemoteTables(id: Id, refresh: bool, now: int, remote: Remote<seq<string>>) returns (answer: Answer)
      modifies schemaCache
      ensures (Contents(), answer) == ListingTables(old(Contents()), id, refresh, now, remote)
    {
      if !refresh {
        var cached := schemaCache.Get(id, now);
        if cached.Some? { return Cached(cached.value); }
      }
      if id !in configs || !configs[id].enabled { return Refused; }
      if remote.reply.None? { return Broken; }
      schemaCache.Set(id, Tables(remote.reply.value), remote.done);
      answer := Made(Tables(remote.reply.value), true);
    }

    method SchemaSnapshot(id: Id, refresh: bool, now: int, remote: Remote<seq<Column>>) returns (answer: Answer)
      modifies schemaCache
      ensures (Contents(), answer) == ListingColumns(old(Contents()), id, refresh, now, remote)
    {
      if !refresh {
        var cached := schemaCache.Get(ColumnsKey(id), now);
        if cached.Some? { return Cached(cached.value); }
      }
      if id !in configs || !configs[id].enabled { return Refused; }
      var config := configs[id];
      var targets := CollectTargets(config);
      if |targets| == 0 {
        schemaCache.Set(ColumnsKey(id), Schema([]), now);
        return Made(Schema([]), false);
      }
      if remote.reply.None? { return Broken; }
      var infos := BuildListing(config, targets, remote.reply.value);
      schemaCache.Set(ColumnsKey(id), Schema(infos), remote.done);
      answer := Made(Schema(infos), true);
    }

    method CollectTargets(config: Config) returns (targets: seq<Target>)
      ensures targets == Targets(config, config.tables)
    {
      targets := [];
      for i := 0 to |config.tables|
        invariant targets == Targets(config, config.tables[..i])
      {
        assert config.tables[..i + 1][..i] == config.tables[..i];
        if config.tables[i].name != "" { targets := targets + [TargetOf(config, config.tables[i])]; }
      }
      assert config.tables[..|config.tables|] == config.tables;
    }

    /** One round of the loop of `prompt_block`: cooldown test, snapshot, mark or clear. */
    method PromptRound(id: Id, now: int, remote: Remote<seq<Column>>) returns (answer: Answer)
      modifies this, schemaCache
      ensures (Contents(), answer) == Prompting(old(Contents()), id, now, remote)
    {
      if id !in configs || !configs[id].enabled { return Refused; }
      if id in schemaFailures {
        if now < schemaFailures[id] { return Refused; }
        schemaFailures := schemaFailures - {id};
      }
      assert schemaFailures == old(schemaFailures) - {id};
      answer := SchemaSnapshot(id, false, now, remote);
      if answer.Failed() {
        schemaFailures := schemaFailures[id := remote.done + SCHEMA_FAILURE_COOLDOWN];
      } else {
        assert schemaFailures - {id} == schemaFailures;
        schemaFailures := schemaFailures - {id};
      }
    }

    /** The loop of `prompt_block`: the listings that go into the prompt, in order. */
    method PromptBlock(ids: seq<Id>, rounds: seq<Round>) returns (parts: seq<(Id, Payload)>)
      requires |rounds| == |ids|
      modifies this, schemaCache
      ensures (Contents(), parts) == PromptingAll(old(Contents()), ids, rounds)
    {
      parts := [];
      for i := 0 to |ids|
        invariant (Contents(), parts) == PromptingAll(old(Contents()), ids[..i], rounds[..i])
      {
        assert ids[..i + 1][..i] == ids[..i] && rounds[..i + 1][..i] == rounds[..i];
        var answer := PromptRound(ids[i], rounds[i].now, rounds[i].remote);
        if !answer.Failed() { parts := parts + [(ids[i], answer.payload)]; }
      }
      assert ids[..|ids|] == ids && rounds[..|rounds|] == rounds;
    }
  }

  // ---------------------------------------------------------------- one datasource does not disturb another

  function Without(parts: seq<(Id, Payload)>, id: Id): seq<(Id, Payload)> {
    if parts == [] then []
    else Without(parts[..|parts| - 1], id) + if parts[|parts| - 1].0 == id then [] else [parts[|parts| - 1]]
  }

  predicate SameAt<V(==)>(a: map<string, V>, b: map<string, V>, key: string) {
    (key in a <==> key in b) && (key in a ==> a[key] == b[key])
  }

  /** The same memory but for what concerns one datasource's columns. */
  ghost predicate AgreeExcept(m: Memory, m': Memory, id: Id) {
    && m.configs == m'.configs
    && (forall key :: key != ColumnsKey(id) ==> SameAt(m.cache, m'.cache, key))
    && (forall other :: other != id ==> SameAt(m.failures, m'.failures, other))
  }

  /** The same rounds but for what one datasource answers. */
  predicate SameRoundsExcept(ids: seq<Id>, rounds: seq<Round>, rounds': seq<Round>, id: Id)
    requires |ids| == |rounds| == |rounds'|
  {
    forall i :: 0 <= i < |ids| && ids[i] != id ==> rounds[i] == rounds'[i]
  }

  /** Nothing but one key has changed. */
  ghost predicate OnlyAt<V>(a: map<string, V>, b: map<string, V>, key: string) {
    forall k :: k != key ==> SameAt(a, b, k)
  }

  lemma ColumnsTouchOwnEntry(m: Memory, id: Id, refresh: bool, now: int, remote: Remote<seq<Column>>)
    ensures
      var m1 := ListingColumns(m, id, refresh, now, remote).0;
      m1.configs == m.configs && m1.failures == m.failures && OnlyAt(m.cache, m1.cache, ColumnsKey(id))
  {
    hide ColumnsKey, Targets, Listing, IsStale;
  }

  lemma RoundTouchesOwn(m: Memory, id: Id, round: Round)
    ensures
      var m1 := Prompting(m, id, round.now, round.remote).0;
      && m1.configs == m.configs
      && OnlyAt(m.cache, m1.cache, ColumnsKey(id)) && OnlyAt(m.failures, m1.failures, id)
  {
    ColumnsTouchOwnEntry(m.(failures := m.failures - {id}), id, false, round.now, round.remote);
    hide ListingColumns, ColumnsKey;
  }

  /** A call for columns looks at nothing but its own configuration and its own entry. */
  lemma ColumnsAreLocal(m: Memory, m': Memory, id: Id, refresh: bool, now: int, remote: Remote<seq<Column>>)
    requires m.configs == m'.configs && SameAt(m.cache, m'.cache, ColumnsKey(id))
    ensures
      var (m1, answer) := ListingColumns(m, id, refresh, now, remote);
      var (m2, answer') := ListingColumns(m', id, refresh, now, remote);
      answer == answer' && SameAt(m1.cache, m2.cache, ColumnsKey(id))
  {
  }

  lemma RoundIsLocal(m: Memory, m': Memory, id: Id, round: Round)
    requires m.configs == m'.configs
    requires SameAt(m.cache, m'.cache, ColumnsKey(id)) && SameAt(m.failures, m'.failures, id)
    ensures
      var (m1, answer) := Prompting(m, id, round.now, round.remote);
      var (m2, answer') := Prompting(m', id, round.now, round.remote);
      && answer == answer'
      && SameAt(m1.cache, m2.cache, ColumnsKey(id)) && SameAt(m1.failures, m2.failures, id)
  {
    var c, c' := m.(failures := m.failures - {id}), m'.(failures := m'.failures - {id});
    ColumnsAreLocal(c, c', id, false, round.now, round.remote);
    ColumnsTouchOwnEntry(c, id, false, round.now, round.remote);
    ColumnsTouchOwnEntry(c', id, false, round.now, round.remote);
    hide ListingColumns, ColumnsKey, OnlyAt;
  }

  lemma OtherRoundsAgree(m: Memory, m': Memory, id: Id, other: Id, round: Round)
    requires AgreeExcept(m, m', id) && other != id
    ensures
      var (m1, answer) := Prompting(m, other, round.now, round.remote);
      var (m2, answer') := Prompting(m', other, round.now, round.remote);
      AgreeExcept(m1, m2, id) && answer == answer'
  {
    if ColumnsKey(id) == ColumnsKey(other) { OtherKey(id, other); }
    RoundIsLocal(m, m', other, round);
    RoundTouchesOwn(m, other, round);
    RoundTouchesOwn(m', other, round);
    var m1, m2 := Prompting(m, other, round.now, round.remote).0, Prompting(m', other, round.now, round.remote).0;
    hide Prompting, ColumnsKey;
    forall key | key != ColumnsKey(id) ensures SameAt(m1.cache, m2.cache, key) {
      if key != ColumnsKey(other) { SameBetween(m.cache, m'.cache, m1.cache, m2.cache, ColumnsKey(other), key); }
    }
    forall k | k != id ensures SameAt(m1.failures, m2.failures, k) {
      if k != other { SameBetween(m.failures, m'.failures, m1.failures, m2.failures, other, k); }
    }
  }

  lemma SameBetween<V>(a: map<string, V>, a': map<string, V>, b: map<string, V>, b': map<string, V>,
      changed: string, key: string)
    requires SameAt(a, a', key) && OnlyAt(a, b, changed) && OnlyAt(a', b', changed) && key != changed
    ensures SameAt(b, b', key)
  {
    assert SameAt(a, b, key) && SameAt(a', b', key);
  }

  lemma OwnRoundStaysOwn(m: Memory, m': Memory, id: Id, round: Round, round': Round)
    requires AgreeExcept(m, m', id)
    ensures AgreeExcept(Prompting(m, id, round.now, round.remote).0, Prompting(m', id, round'.now, round'.remote).0, id)
  {
    RoundTouchesOwn(m, id, round);
    RoundTouchesOwn(m', id, round');
    var m1, m2 := Prompting(m, id, round.now, round.remote).0, Prompting(m', id, round'.now, round'.remote).0;
    hide Prompting, ColumnsKey;
    forall key | key != ColumnsKey(id) ensures SameAt(m1.cache, m2.cache, key) {
      SameBetween(m.cache, m'.cache, m1.cache, m2.cache, ColumnsKey(id), key);
    }
    forall k | k != id ensures SameAt(m1.failures, m2.failures, k) {
      SameBetween(m.failures, m'.failures, m1.failures, m2.failures, id, k);
    }
  }

  /**
    Whatever one datasource answers, and whether it is cooling down, the parts of all others are the
    same and stand in the same order.
   */
  lemma {:induction false} OtherPartsAreUnaffected(
    m: Memory, m': Memory, ids: seq<Id>, rounds: seq<Round>, rounds': seq<Round>, id: Id)
    requires |ids| == |rounds| == |rounds'|
    requires AgreeExcept(m, m', id) && SameRoundsExcept(ids, rounds, rounds', id)
    ensures
      var (m1, parts) := PromptingAll(m, ids, rounds);
      var (m2, parts') := PromptingAll(m', ids, rounds');
      AgreeExcept(m1, m2, id) && Without(parts, id) == Without(parts', id)
    decreases |ids|
  {
    hide AgreeExcept, Prompting, Without;
    if ids == [] {
    } else {
      var n := |ids| - 1;
      var (m1, parts) := PromptingAll(m, ids[..n], rounds[..n]);
      var (m2, parts') := PromptingAll(m', ids[..n], rounds'[..n]);
      OtherPartsAreUnaffected(m, m', ids[..n], rounds[..n], rounds'[..n], id);
      if ids[n] == id {
        OwnRoundStaysOwn(m1, m2, id, rounds[n], rounds'[n]);
      } else {
        OtherRoundsAgree(m1, m2, id, ids[n], rounds[n]);
      }
      var (_, answer) := Prompting(m1, ids[n], rounds[n].now, rounds[n].remote);
      var (_, answer') := Prompting(m2, ids[n], rounds'[n].now, rounds'[n].remote);
      if !answer.Failed() { WithoutMore(parts, (ids[n], answer.payload), id); }
      if !answer'.Failed() { WithoutMore(parts', (ids[n], answer'.payload), id); }
    }
  }

  /** What the rounds of other datasources do makes no difference to an answer. */
  lemma {:induction false} EarlierRoundsDoNotMatter(m: Memory, ids: seq<Id>, rounds: seq<Round>, id: Id, round: Round)
    requires |rounds| == |ids| && id !in ids
    ensures Prompting(PromptingAll(m, ids, rounds).0, id, round.now, round.remote).1 ==
            Prompting(m, id, round.now, round.remote).1
  {
    hide Prompting, ColumnsKey;
    if ids == [] {
    } else {
      var n := |ids| - 1;
      EarlierRoundsDoNotMatter(m, ids[..n], rounds[..n], id, round);
      var before, after := PromptingAll(m, ids[..n], rounds[..n]).0, PromptingAll(m, ids, rounds).0;
      assert after == Prompting(before, ids[n], rounds[n].now, rounds[n].remote).0;
      RoundTouchesOwn(before, ids[n], rounds[n]);
      assert AgreeExcept(before, after, ids[n]);
      OtherRoundsAgree(before, after, ids[n], id, round);
    }
  }

  /** The parts each datasource would give alone, in the order of the datasources. */
  function PartsAlone(m: Memory, ids: seq<Id>, rounds: seq<Round>): seq<(Id, Payload)>
    requires |rounds| == |ids|
  {
    if ids == [] then []
    else
      var answer := Prompting(m, ids[0], rounds[0].now, rounds[0].remote).1;
      (if answer.Failed() then [] else [(ids[0], answer.payload)]) + PartsAlone(m, ids[1..], rounds[1..])
  }

  lemma {:induction false} PartsAloneOfMore(m: Memory, ids: seq<Id>, rounds: seq<Round>)
    requires |rounds| == |ids| && ids != []
    ensures
      var n := |ids| - 1;
      var answer := Prompting(m, ids[n], rounds[n].now, rounds[n].remote).1;
      PartsAlone(m, ids, rounds) ==
      PartsAlone(m, ids[..n], rounds[..n]) + if answer.Failed() then [] else [(ids[n], answer.payload)]
  {
    hide Prompting;
    var n := |ids| - 1;
    if n > 0 {
      PartsAloneOfMore(m, ids[1..], rounds[1..]);
      assert ids[1..][..n - 1] == ids[..n][1..] && rounds[1..][..n - 1] == rounds[..n][1..];
    }
  }

  /**
    The prompt holds exactly the listings that each datasource, asked alone, would have given, in the
    order of the datasources.
   */
  lemma {:induction false} PromptIsPartsAlone(m: Memory, ids: seq<Id>, rounds: seq<Round>)
    requires |rounds| == |ids| && forall i, j :: 0 <= i < j < |ids| ==> ids[i] != ids[j]
    ensures PromptingAll(m, ids, rounds).1 == PartsAlone(m, ids, rounds)
    decreases |ids|
  {
    hide Prompting;
    if ids == [] {
    } else {
      var n := |ids| - 1;
      PromptIsPartsAlone(m, ids[..n], rounds[..n]);
      PartsAloneOfMore(m, ids, rounds);
      EarlierRoundsDoNotMatter(m, ids[..n], rounds[..n], ids[n], rounds[n]);
    }
  }

  lemma WithoutMore(parts: seq<(Id, Payload)>, part: (Id, Payload), id: Id)
    ensures Without(parts + [part], id) == Without(parts, id) + if part.0 == id then [] else [part]
  {
  }

  lemma OtherKey(id: Id, other: Id)
    requires ColumnsKey(id) == ColumnsKey(other)
    ensures id == other
  {
    assert ColumnsKey(id)[|COLUMNS|..] == id && ColumnsKey(other)[|COLUMNS|..] == other;
  }

  // ---------------------------------------------------------------- runs

  /** What an entry of the cache was computed from, when, and under which configuration. */
  datatype Origin =
    | FromTables(id: Id, tables: seq<string>, at: int, generation: nat)
    | FromColumns(id: Id, columns: seq<Column>, at: int, generation: nat)
  {
    function Key(): string {
      if FromTables? then id else ColumnsKey(id)
    }

    function PayloadUnder(config: Config): Payload {
      if FromTables? then Tables(tables) else Schema(Listing(config, Targets(config, config.tables), columns))
    }
  }

  /** A schema read by `prompt_block` that used a connection. */
  datatype Attempt = Attempt(id: Id, start: int, end: int, ok: bool, generation: nat)

  /** `generation` counts the reloads; `origins` and `attempts` record the run. */
  datatype Service = Service(
    memory: Memory, clock: int, generation: nat, origins: map<string, Origin>, attempts: seq<Attempt>)

  datatype Step =
    | Wait(seconds: nat)
    | Replace(entries: seq<(Id, Config)>)
    | AskTables(id: Id, refresh: bool, took: nat, reply: Option<seq<string>>)
    | AskColumns(id: Id, refresh: bool, took: nat, columns: Option<seq<Column>>)
    | Prompt(id: Id, took: nat, columns: Option<seq<Column>>)

  function Recording(s: Service, answer: Answer, origin: Origin): map<string, Origin> {
    if answer.Made? then s.origins[origin.Key() := origin] else s.origins
  }

  /** Without a contact nothing was fetched and no time passed. */
  function ColumnsOrigin(s: Service, answer: Answer, id: Id, took: nat, columns: Option<seq<Column>>): Origin {
    if answer.Made? && answer.contacted && columns.Some?
    then FromColumns(id, columns.value, s.clock + took, s.generation)
    else FromColumns(id, [], s.clock, s.generation)
  }

  predicate Contacted(answer: Answer) {
    answer.Broken? || (answer.Made? && answer.contacted)
  }

  /** A reload takes validated entries only. */
  function Apply(s: Service, step: Step): Service {
    match step
    case Wait(seconds) => s.(clock := s.clock + seconds)
    case Replace(entries) =>
      if forall i :: 0 <= i < |entries| ==> IsRuntimeId(entries[i].0)
      then s.(memory := Reloading(entries), generation := s.generation + 1)
      else s
    case AskTables(id, refresh, took, reply) =>
      var (memory, answer) := ListingTables(s.memory, id, refresh, s.clock, Remote(s.clock + took, reply));
      s.(memory := memory, clock := s.clock + took,
         origins := Recording(s, answer, FromTables(id, reply.UnwrapOr([]), s.clock + took, s.generation)))
    case AskColumns(id, refresh, took, columns) =>
      var (memory, answer) := ListingColumns(s.memory, id, refresh, s.clock, Remote(s.clock + took, columns));
      s.(memory := memory, clock := s.clock + took,
         origins := Recording(s, answer, ColumnsOrigin(s, answer, id, took, columns)))
    case Prompt(id, took, columns) =>
      var (memory, answer) := Prompting(s.memory, id, s.clock, Remote(s.clock + took, columns));
      s.(memory := memory, clock := s.clock + took,
         origins := Recording(s, answer, ColumnsOrigin(s, answer, id, took, columns)),
         attempts :=
           if Contacted(answer)
           then s.attempts + [Attempt(id, s.clock, s.clock + took, !answer.Failed(), s.generation)]
           else s.attempts)
  }

  function Execute(steps: seq<Step>): Service {
    if steps == [] then Service(Memory(map[], map[], map[]), 0, 0, map[], [])
    else Apply(Execute(steps[..|steps| - 1]), steps[|steps| - 1])
  }

  // ---------------------------------------------------------------- cached values are current

  predicate IsPrefixed(id: Id) {
    |id| >= |COLUMNS| && id[..|COLUMNS|] == COLUMNS
  }

  lemma RuntimeIdsAreNotPrefixed(id: Id)
    requires IsRuntimeId(id)
    ensures !IsPrefixed(id)
  {
    if IsPrefixed(id) { PrefixedHasColon(id); }
  }

  lemma PrefixedHasColon(id: Id)
    requires IsPrefixed(id)
    ensures |id| >= 5 && id[4] == ':'
  {
  }

  /** The entry holds what was computed last for its key, under the present configuration. */
  ghost predicate IsCurrent(s: Service, key: string)
    requires key in s.memory.cache
  {
    && key in s.origins
    && var o := s.origins[key];
       && o.Key() == key && o.generation == s.generation && o.at == s.memory.cache[key].at <= s.clock
       && o.id in s.memory.configs && s.memory.configs[o.id].enabled
       && o.PayloadUnder(s.memory.configs[o.id]) == s.memory.cache[key].payload
  }

  ghost predicate CacheIsCurrent(s: Service) {
    && (forall id :: id in s.memory.configs ==> IsRuntimeId(id))
    && (forall key :: key in s.memory.cache ==> IsCurrent(s, key))
  }

  lemma {:induction false} CollectedAreValid(entries: seq<(Id, Config)>)
    requires forall i :: 0 <= i < |entries| ==> IsRuntimeId(entries[i].0)
    ensures forall id :: id in Collect(entries) ==> IsRuntimeId(id)
  {
    if entries != [] { CollectedAreValid(entries[..|entries| - 1]); }
  }

  /** Other entries, and the parts of the state they rest on, are as they were. */
  lemma OthersStayCurrent(s: Service, s': Service, key: string)
    requires CacheIsCurrent(s) && s'.memory.configs == s.memory.configs
    requires s'.generation == s.generation && s'.clock >= s.clock
    requires OnlyAt(s.memory.cache, s'.memory.cache, key) && OnlyAt(s.origins, s'.origins, key)
    requires key in s'.memory.cache ==> IsCurrent(s', key)
    ensures CacheIsCurrent(s')
  {
    forall k | k in s'.memory.cache ensures IsCurrent(s', k) {
      if k != key {
        assert SameAt(s.memory.cache, s'.memory.cache, k) && SameAt(s.origins, s'.origins, k);
        assert IsCurrent(s, k);
      }
    }
  }

  lemma TablesEffect(m: Memory, id: Id, refresh: bool, now: int, remote: Remote<seq<string>>)
    ensures
      var (m1, answer) := ListingTables(m, id, refresh, now, remote);
      && m1.configs == m.configs && m1.failures == m.failures && OnlyAt(m.cache, m1.cache, id)
      && if answer.Made?
         then id in m1.configs && m1.configs[id].enabled && id in m1.cache && remote.reply.Some?
              && m1.cache[id] == Entry(remote.done, Tables(remote.reply.value))
         else id in m1.cache ==> id in m.cache && m1.cache[id] == m.cache[id]
  {
  }

  lemma ColumnsEffect(m: Memory, id: Id, refresh: bool, now: int, remote: Remote<seq<Column>>)
    ensures
      var (m1, answer) := ListingColumns(m, id, refresh, now, remote);
      var key := ColumnsKey(id);
      if answer.Made?
      then
        && id in m.configs && m.configs[id].enabled && key in m1.cache && (answer.contacted ==> remote.reply.Some?)
        && var columns := if answer.contacted then remote.reply.value else [];
           m1.cache[key] == Entry(if answer.contacted then remote.done else now,
                                  Schema(Listing(m.configs[id], Targets(m.configs[id], m.configs[id].tables), columns)))
      else key in m1.cache ==> key in m.cache && m1.cache[key] == m.cache[key]
  {
  }

  /** A call changes one entry at most, and if it does, records where the entry comes from. */
  lemma CallStaysCurrent(s: Service, s': Service, origin: Origin, made: bool)
    requires CacheIsCurrent(s) && s'.memory.configs == s.memory.configs
    requires s'.generation == s.generation && s'.clock >= s.clock
    requires OnlyAt(s.memory.cache, s'.memory.cache, origin.Key())
    requires s'.origins == if made then s.origins[origin.Key() := origin] else s.origins
    requires
      var key := origin.Key();
      if made
      then key in s'.memory.cache && origin.generation == s.generation && origin.at <= s'.clock
           && origin.id in s.memory.configs && s.memory.configs[origin.id].enabled
           && s'.memory.cache[key] == Entry(origin.at, origin.PayloadUnder(s.memory.configs[origin.id]))
      else key in s'.memory.cache ==> key in s.memory.cache && s'.memory.cache[key] == s.memory.cache[key]
    ensures CacheIsCurrent(s')
  {
    assert origin.Key() in s.memory.cache ==> IsCurrent(s, origin.Key());
    OthersStayCurrent(s, s', origin.Key());
  }

  lemma TablesStayCurrent(s: Service, id: Id, refresh: bool, took: nat, reply: Option<seq<string>>)
    requires CacheIsCurrent(s)
    ensures CacheIsCurrent(Apply(s, AskTables(id, refresh, took, reply)))
  {
    var remote := Remote(s.clock + took, reply);
    TablesEffect(s.memory, id, refresh, s.clock, remote);
    var (_, answer) := ListingTables(s.memory, id, refresh, s.clock, remote);
    hide CacheIsCurrent, ListingTables;
    CallStaysCurrent(s, Apply(s, AskTables(id, refresh, took, reply)),
                     FromTables(id, reply.UnwrapOr([]), s.clock + took, s.generation), answer.Made?);
  }

  lemma ColumnsStayCurrent(s: Service, id: Id, refresh: bool, took: nat, columns: Option<seq<Column>>)
    requires CacheIsCurrent(s)
    ensures CacheIsCurrent(Apply(s, AskColumns(id, refresh, took, columns)))
  {
    var remote := Remote(s.clock + took, columns);
    ColumnsEffect(s.memory, id, refresh, s.clock, remote);
    ColumnsTouchOwnEntry(s.memory, id, refresh, s.clock, remote);
    var (_, answer) := ListingColumns(s.memory, id, refresh, s.clock, remote);
    hide CacheIsCurrent, ListingColumns, ColumnsKey, Targets, Listing;
    CallStaysCurrent(s, Apply(s, AskColumns(id, refresh, took, columns)),
                     ColumnsOrigin(s, answer, id, took, columns), answer.Made?);
  }

  lemma WaitingStaysCurrent(s: Service, seconds: nat)
    requires CacheIsCurrent(s)
    ensures CacheIsCurrent(Apply(s, Wait(seconds)))
  {
  }

  lemma StepStaysCurrent(s: Service, step: Step)
    requires CacheIsCurrent(s)
    ensures CacheIsCurrent(Apply(s, step))
  {
    match step {
      case Wait(seconds) => WaitingStaysCurrent(s, seconds);
      case Replace(entries) =>
        if forall i :: 0 <= i < |entries| ==> IsRuntimeId(entries[i].0) { CollectedAreValid(entries); }
      case AskTables(id, refresh, took, reply) => TablesStayCurrent(s, id, refresh, took, reply);
      case AskColumns(id, refresh, took, columns) => ColumnsStayCurrent(s, id, refresh, took, columns);
      case Prompt(id, took, columns) => PromptStaysCurrent(s, id, took, columns);
    }
  }

  lemma PromptStaysCurrent(s: Service, id: Id, took: nat, columns: Option<seq<Column>>)
    requires CacheIsCurrent(s)
    ensures CacheIsCurrent(Apply(s, Prompt(id, took, columns)))
  {
    var s', remote := Apply(s, Prompt(id, took, columns)), Remote(s.clock + took, columns);
    var m := s.memory.(failures := s.memory.failures - {id});
    ColumnsEffect(m, id, false, s.clock, remote);
    ColumnsTouchOwnEntry(m, id, false, s.clock, remote);
    var (_, answer) := Prompting(s.memory, id, s.clock, remote);
    hide CacheIsCurrent, ListingColumns, ColumnsKey, Targets, Listing;
    CallStaysCurrent(s, s', ColumnsOrigin(s, answer, id, took, columns), answer.Made?);
  }

  lemma {:induction false} CacheIsAlwaysCurrent(steps: seq<Step>)
    ensures CacheIsCurrent(Execute(steps))
  {
    if steps == [] {
    } else {
      CacheIsAlwaysCurrent(steps[..|steps| - 1]);
      StepStaysCurrent(Execute(steps[..|steps| - 1]), steps[|steps| - 1]);
    }
  }

  /**
    The tables a call returns were fetched for that datasource under the configuration of the latest
    reload, at most 900 seconds before the call; given an id that is no key of the other kind.
   */
  lemma TablesAreCurrent(steps: seq<Step>, id: Id, refresh: bool, took: nat, reply: Option<seq<string>>)
    requires !IsPrefixed(id)
    ensures
      var s, s' := Execute(steps), Apply(Execute(steps), AskTables(id, refresh, took, reply));
      var answer := ListingTables(s.memory, id, refresh, s.clock, Remote(s.clock + took, reply)).1;
      !answer.Failed() ==>
        && id in s'.origins && s'.origins[id].FromTables? && s'.origins[id].id == id && id in s.memory.configs
        && answer.payload == Tables(s'.origins[id].tables)
        && s'.origins[id].generation == s.generation
        && OldestAllowed(refresh, s.clock) <= s'.origins[id].at <= s'.clock
  {
    hide CacheIsCurrent, Execute, ListingColumns, ListingTables, Prompting, Recording, ColumnsOrigin, Reloading;
    var s, step := Execute(steps), AskTables(id, refresh, took, reply);
    CacheIsAlwaysCurrent(steps);
    TablesAnswerIsInCache(s.memory, id, refresh, s.clock, Remote(s.clock + took, reply));
    StepStaysCurrent(s, step);
    if id in Apply(s, step).memory.cache { OriginOfTables(Apply(s, step), id); }
  }

  lemma TablesAnswerIsInCache(m: Memory, id: Id, refresh: bool, now: int, remote: Remote<seq<string>>)
    requires remote.done >= now
    ensures
      var (m1, answer) := ListingTables(m, id, refresh, now, remote);
      m1.configs == m.configs && (!answer.Failed() ==> Holds(m1, id, answer.payload, OldestAllowed(refresh, now)))
  {
  }

  lemma OriginOfTables(s: Service, id: Id)
    requires CacheIsCurrent(s) && id in s.memory.cache && !IsPrefixed(id)
    ensures IsCurrent(s, id)
    ensures s.origins[id].FromTables? && s.origins[id].id == id
  {
  }

  /** The same for columns: the listing is that of the fetched columns under the present configuration. */
  lemma ColumnsAreCurrent(steps: seq<Step>, id: Id, refresh: bool, took: nat, columns: Option<seq<Column>>)
    ensures
      var s, s' := Execute(steps), Apply(Execute(steps), AskColumns(id, refresh, took, columns));
      var answer := ListingColumns(s.memory, id, refresh, s.clock, Remote(s.clock + took, columns)).1;
      var key := ColumnsKey(id);
      !answer.Failed() ==>
        && key in s'.origins && s'.origins[key].FromColumns? && s'.origins[key].id == id && id in s.memory.configs
        && answer.payload == s'.origins[key].PayloadUnder(s.memory.configs[id])
        && s'.origins[key].generation == s.generation
        && OldestAllowed(refresh, s.clock) <= s'.origins[key].at <= s'.clock
  {
    hide CacheIsCurrent, Execute, ListingColumns, ListingTables, Prompting, Recording, ColumnsOrigin;
    hide ColumnsKey, Listing, Targets, Reloading;
    var s, step := Execute(steps), AskColumns(id, refresh, took, columns);
    CacheIsAlwaysCurrent(steps);
    ColumnsAnswerIsInCache(s.memory, id, refresh, s.clock, Remote(s.clock + took, columns));
    StepStaysCurrent(s, step);
    if ColumnsKey(id) in Apply(s, step).memory.cache { OriginOfColumns(Apply(s, step), id); }
  }

  /** The entry has this payload and is no older than that. */
  predicate Holds(m: Memory, key: string, payload: Payload, since: int) {
    key in m.cache && m.cache[key].payload == payload && m.cache[key].at >= since
  }

  /** A call that asks for a refresh is content with nothing that was there before. */
  function OldestAllowed(refresh: bool, now: int): int {
    if refresh then now else now - CACHE_TTL_SECONDS
  }

  lemma ColumnsAnswerIsInCache(m: Memory, id: Id, refresh: bool, now: int, remote: Remote<seq<Column>>)
    requires remote.done >= now
    ensures
      var (m1, answer) := ListingColumns(m, id, refresh, now, remote);
      m1.configs == m.configs && (!answer.Failed() ==>
          Holds(m1, ColumnsKey(id), answer.payload, OldestAllowed(refresh, now)))
  {
  }

  lemma OriginOfColumns(s: Service, id: Id)
    requires CacheIsCurrent(s) && ColumnsKey(id) in s.memory.cache
    ensures IsCurrent(s, ColumnsKey(id))
    ensures s.origins[ColumnsKey(id)].FromColumns? && s.origins[ColumnsKey(id)].id == id
  {
    var o := s.origins[ColumnsKey(id)];
    assert IsCurrent(s, ColumnsKey(id));
    RuntimeIdsAreNotPrefixed(o.id);
    if o.FromColumns? { OtherKey(id, o.id); }
  }

  /**
    An id of the other kind's form is never answered with tables: it gets that entry's columns while
    the cache holds them, without any look at the configuration, and else is refused.
   */
  lemma PrefixedIdReadsColumns(steps: seq<Step>, id: Id, refresh: bool, took: nat, reply: Option<seq<string>>)
    ensures
      var s, key := Execute(steps), ColumnsKey(id);
      var answer := ListingTables(s.memory, key, refresh, s.clock, Remote(s.clock + took, reply)).1;
      if !refresh && key in s.memory.cache && !IsStale(s.memory.cache[key], s.clock)
      then
        && id in s.memory.configs && key in s.origins && s.origins[key].FromColumns? && s.origins[key].id == id
        && answer == Cached(s.origins[key].PayloadUnder(s.memory.configs[id]))
      else answer == Refused
  {
    hide Execute, Listing, Targets, Prompting, ListingColumns, Recording, ColumnsOrigin;
    var s, key := Execute(steps), ColumnsKey(id);
    CacheIsAlwaysCurrent(steps);
    if key in s.memory.cache { OriginOfColumns(s, id); }
    if key in s.memory.configs { RuntimeIdsAreNotPrefixed(key); }
  }

  // ---------------------------------------------------------------- what is answered, and how

  predicate Enabled(m: Memory, id: Id) {
    id in m.configs && m.configs[id].enabled
  }

  /** The cache holds what was stored under this key at most 900 seconds ago. */
  predicate IsFresh(m: Memory, key: string, now: int) {
    key in m.cache && now - m.cache[key].at <= CACHE_TTL_SECONDS
  }

  /** In every run a datasource that is unknown or disabled is refused by every call, whatever was cached before. */
  lemma DisabledIsRefused(steps: seq<Step>, id: Id, refresh: bool, took: nat, reply: Option<seq<string>>,
      columns: Option<seq<Column>>)
    requires !Enabled(Execute(steps).memory, id)
    ensures
      var m, now := Execute(steps).memory, Execute(steps).clock;
      && (!IsPrefixed(id) ==> ListingTables(m, id, refresh, now, Remote(now + took, reply)).1 == Refused)
      && ListingColumns(m, id, refresh, now, Remote(now + took, columns)).1 == Refused
      && Prompting(m, id, now, Remote(now + took, columns)).1 == Refused
  {
    hide Execute, Listing, Targets, Recording, ColumnsOrigin;
    var s := Execute(steps);
    CacheIsAlwaysCurrent(steps);
    if ColumnsKey(id) in s.memory.cache { OriginOfColumns(s, id); }
    if id in s.memory.cache {
      assert IsCurrent(s, id);
      var o := s.origins[id];
      if o.FromColumns? { assert ColumnsKey(o.id)[..|COLUMNS|] == COLUMNS; }
    }
  }

  /** A call for tables gets what is fresh in the cache, else asks an enabled datasource and stores its reply. */
  lemma TablesAreAnswered(m: Memory, id: Id, refresh: bool, now: int, remote: Remote<seq<string>>)
    ensures
      var (m1, answer) := ListingTables(m, id, refresh, now, remote);
      if !refresh && IsFresh(m, id, now) then answer == Cached(m.cache[id].payload) && m1 == m
      else
        && (answer == Refused <==> !Enabled(m, id))
        && (answer == Broken <==> Enabled(m, id) && remote.reply.None?)
        && (Enabled(m, id) && remote.reply.Some? ==>
              && answer == Made(Tables(remote.reply.value), true)
              && id in m1.cache && m1.cache[id] == Entry(remote.done, Tables(remote.reply.value)))
  {
  }

  /** The same for columns, which an entry without a named table needs no contact for. */
  lemma ColumnsAreAnswered(m: Memory, id: Id, refresh: bool, now: int, remote: Remote<seq<Column>>)
    ensures
      var (m1, answer) := ListingColumns(m, id, refresh, now, remote);
      var key := ColumnsKey(id);
      if !refresh && IsFresh(m, key, now) then answer == Cached(m.cache[key].payload) && m1 == m
      else
        && (answer == Refused <==> !Enabled(m, id))
        && (Enabled(m, id) ==>
              var config := m.configs[id];
              if Named(config.tables) == 0 then answer == Made(Schema([]), false)
              else if remote.reply.None? then answer == Broken
              else
                && answer == Made(Schema(Listing(config, Targets(config, config.tables), remote.reply.value)), true)
                && key in m1.cache && m1.cache[key] == Entry(remote.done, answer.payload))
  {
    if Enabled(m, id) { TargetsAreNamed(m.configs[id], m.configs[id].tables); }
    hide Targets, Named, Listing, ColumnsKey;
  }

  /** What one call has fetched the next one gets from the cache, for 900 seconds. */
  lemma SecondCallIsCached(m: Memory, id: Id, refresh: bool, now: int, remote: Remote<seq<Column>>, later: int,
      other: Remote<seq<Column>>)
    ensures
      var (m1, answer) := ListingColumns(m, id, refresh, now, remote);
      answer.Made? && answer.contacted && later - remote.done <= CACHE_TTL_SECONDS ==>
        ListingColumns(m1, id, false, later, other) == (m1, Cached(answer.payload))
  {
    hide ListingColumns, Listing, Targets, ColumnsKey, Named;
    ColumnsAreAnswered(m, id, refresh, now, remote);
    ColumnsAreAnswered(ListingColumns(m, id, refresh, now, remote).0, id, false, later, other);
  }

  /**
    In every run, a reload of validated entries puts the last entry of each id in force, and nothing
    read or failed before counts any more.
   */
  lemma ReloadTakesEffect(steps: seq<Step>, entries: seq<(Id, Config)>, id: Id)
    requires forall i :: 0 <= i < |entries| ==> IsRuntimeId(entries[i].0)
    ensures
      var s := Execute(steps + [Replace(entries)]);
      && s.clock == Execute(steps).clock
      && (id in s.memory.configs <==> exists i :: 0 <= i < |entries| && entries[i].0 == id)
      && (forall i: nat :: IsLastOf(entries, i, id) ==>
            id in s.memory.configs && s.memory.configs[id] == entries[i].1)
      && (forall refresh, remote :: !ListingTables(s.memory, id, refresh, s.clock, remote).1.Cached?)
      && (forall refresh, remote :: !ListingColumns(s.memory, id, refresh, s.clock, remote).1.Cached?)
      && !Cooling(s.memory, id, s.clock)
  {
    assert (steps + [Replace(entries)])[..|steps|] == steps;
    hide Execute, Collect, Targets, Listing, IsStale;
    ConfigsAreLastGiven(entries, id);
  }

  // ---------------------------------------------------------------- the cooldown

  /** Since the reload, every failed attempt either still blocks its datasource or lies a cooldown back. */
  ghost predicate FailuresAreMarked(s: Service) {
    forall i :: 0 <= i < |s.attempts| && !s.attempts[i].ok && s.attempts[i].generation == s.generation ==>
      IsMarked(s, s.attempts[i])
  }

  predicate IsMarked(s: Service, a: Attempt) {
    || s.clock >= a.end + SCHEMA_FAILURE_COOLDOWN
    || (a.id in s.memory.failures && s.memory.failures[a.id] >= a.end + SCHEMA_FAILURE_COOLDOWN)
  }

  ghost predicate AttemptsAreApart(s: Service) {
    && (forall i :: 0 <= i < |s.attempts| ==> s.attempts[i].generation <= s.generation && s.attempts[i].end <= s.clock)
    && (forall i, j :: 0 <= i < j < |s.attempts| ==> Apart(s.attempts[i], s.attempts[j]))
  }

  predicate Apart(a: Attempt, b: Attempt) {
    a.id == b.id && a.generation == b.generation && !a.ok ==> b.start >= a.end + SCHEMA_FAILURE_COOLDOWN
  }

  /** What one round does to the marks: only its own, and only if it was not cooling down. */
  lemma RoundMarks(s: Service, id: Id, took: nat, columns: Option<seq<Column>>)
    ensures
      var (m1, answer) := Prompting(s.memory, id, s.clock, Remote(s.clock + took, columns));
      && OnlyAt(s.memory.failures, m1.failures, id)
      && (Cooling(s.memory, id, s.clock) ==> m1.failures == s.memory.failures && !Contacted(answer))
      && (answer.Refused? ==> m1.failures == s.memory.failures)
      && (answer.Broken? ==> id in m1.failures && m1.failures[id] == s.clock + took + SCHEMA_FAILURE_COOLDOWN)
      && (Contacted(answer) && answer.Failed() ==> answer.Broken?)
      && (answer.Cached? || answer.Made? ==> id !in m1.failures)
  {
    ColumnsTouchOwnEntry(s.memory.(failures := s.memory.failures - {id}), id, false, s.clock,
        Remote(s.clock + took, columns));
    hide ColumnsKey, Targets, Listing, IsStale;
  }

  lemma PromptKeepsMarks(s: Service, id: Id, took: nat, columns: Option<seq<Column>>)
    requires FailuresAreMarked(s) && AttemptsAreApart(s)
    ensures FailuresAreMarked(Apply(s, Prompt(id, took, columns)))
    ensures AttemptsAreApart(Apply(s, Prompt(id, took, columns)))
  {
    var s' := Apply(s, Prompt(id, took, columns));
    RoundMarks(s, id, took, columns);
    hide Prompting, Recording, ColumnsOrigin;
    forall i | 0 <= i < |s.attempts| && !s.attempts[i].ok && s.attempts[i].generation == s.generation
      ensures IsMarked(s', s.attempts[i])
    {
      assert IsMarked(s, s.attempts[i]);
      if s.attempts[i].id != id { assert SameAt(s.memory.failures, s'.memory.failures, s.attempts[i].id); }
    }
    if |s'.attempts| > |s.attempts| {
      forall i | 0 <= i < |s.attempts| ensures Apart(s.attempts[i], s'.attempts[|s.attempts|]) {
        if !s.attempts[i].ok && s.attempts[i].generation == s.generation { assert IsMarked(s, s.attempts[i]); }
      }
    }
  }

  lemma CallsKeepFailures(m: Memory, id: Id, refresh: bool, now: int, remote: Remote<seq<string>>)
    ensures ListingTables(m, id, refresh, now, remote).0.failures == m.failures
  {
  }

  lemma StepKeepsMarks(s: Service, step: Step)
    requires FailuresAreMarked(s) && AttemptsAreApart(s)
    ensures FailuresAreMarked(Apply(s, step)) && AttemptsAreApart(Apply(s, step))
  {
    var s' := Apply(s, step);
    match step {
      case Prompt(id, took, columns) => PromptKeepsMarks(s, id, took, columns);
      case AskTables(id, refresh, took, reply) =>
        CallsKeepFailures(s.memory, id, refresh, s.clock, Remote(s.clock + took, reply));
        hide ListingTables, Recording;
        LaterKeepsMarks(s, s');
      case AskColumns(id, refresh, took, columns) =>
        ColumnsTouchOwnEntry(s.memory, id, refresh, s.clock, Remote(s.clock + took, columns));
        hide ListingColumns, Recording, ColumnsOrigin;
        LaterKeepsMarks(s, s');
      case Wait(seconds) => LaterKeepsMarks(s, s');
      case Replace(entries) => hide Reloading;
    }
  }

  lemma LaterKeepsMarks(s: Service, s': Service)
    requires FailuresAreMarked(s) && AttemptsAreApart(s)
    requires s'.memory.failures == s.memory.failures && s'.clock >= s.clock
    requires s'.generation == s.generation && s'.attempts == s.attempts
    ensures FailuresAreMarked(s') && AttemptsAreApart(s')
  {
  }

  lemma {:induction false} MarksAreKept(steps: seq<Step>)
    ensures FailuresAreMarked(Execute(steps)) && AttemptsAreApart(Execute(steps))
  {
    if steps == [] {
    } else {
      MarksAreKept(steps[..|steps| - 1]);
      StepKeepsMarks(Execute(steps[..|steps| - 1]), steps[|steps| - 1]);
    }
  }

  /** Between two reloads, a failed read keeps the prompt away from that datasource for sixty seconds. */
  lemma FailureIsFollowedByCooldown(steps: seq<Step>, i: nat, j: nat)
    requires i < j < |Execute(steps).attempts|
    requires Execute(steps).attempts[i].id == Execute(steps).attempts[j].id
    requires Execute(steps).attempts[i].generation == Execute(steps).attempts[j].generation
    requires !Execute(steps).attempts[i].ok
    ensures Execute(steps).attempts[j].start >= Execute(steps).attempts[i].end + SCHEMA_FAILURE_COOLDOWN
  {
    MarksAreKept(steps);
    assert Apart(Execute(steps).attempts[i], Execute(steps).attempts[j]);
  }

  /** After a read that succeeds, the next round of the prompt does not pass the datasource over. */
  lemma SuccessClearsMark(
    steps: seq<Step>, id: Id, took: nat, columns: Option<seq<Column>>, took': nat, columns': Option<seq<Column>>)
    ensures
      var s := Execute(steps);
      var s' := Apply(s, Prompt(id, took, columns));
      !Prompting(s.memory, id, s.clock, Remote(s.clock + took, columns)).1.Failed() ==>
        !Prompting(s'.memory, id, s'.clock, Remote(s'.clock + took', columns')).1.Refused?
  {
    hide Execute;
    var s := Execute(steps);
    var s' := Apply(s, Prompt(id, took, columns));
    RoundMarks(s, id, took, columns);
    SuccessMeansUsable(s.memory, id, s.clock, Remote(s.clock + took, columns));
    hide Prompting, Recording, ColumnsOrigin;
    if Usable(s'.memory, id) { RefusedWhileCooling(s'.memory, id, s'.clock, Remote(s'.clock + took', columns')); }
  }

  lemma SuccessMeansUsable(m: Memory, id: Id, now: int, remote: Remote<seq<Column>>)
    ensures Prompting(m, id, now, remote).0.configs == m.configs
    ensures !Prompting(m, id, now, remote).1.Failed() ==> Usable(m, id)
  {
    ColumnsTouchOwnEntry(m.(failures := m.failures - {id}), id, false, now, remote);
    hide ListingColumns;
  }

  /** Every mark was left by a failed attempt since the reload. */
  ghost predicate MarkIsFromFailure(s: Service, id: Id)
    requires id in s.memory.failures
  {
    exists i :: 0 <= i < |s.attempts| && Blocks(s, s.attempts[i], id, s.memory.failures[id])
  }

  predicate Blocks(s: Service, a: Attempt, id: Id, deadline: int) {
    a.id == id && !a.ok && a.generation == s.generation && deadline == a.end + SCHEMA_FAILURE_COOLDOWN
  }

  ghost predicate MarksAreFromFailures(s: Service) {
    forall id :: id in s.memory.failures ==> MarkIsFromFailure(s, id)
  }

  lemma MarkStays(s: Service, s': Service, id: Id)
    requires id in s.memory.failures && MarkIsFromFailure(s, id)
    requires id in s'.memory.failures && s'.memory.failures[id] == s.memory.failures[id]
    requires s'.generation == s.generation && s.attempts <= s'.attempts
    ensures MarkIsFromFailure(s', id)
  {
    var i :| 0 <= i < |s.attempts| && Blocks(s, s.attempts[i], id, s.memory.failures[id]);
    assert s'.attempts[i] == s.attempts[i];
    assert Blocks(s', s'.attempts[i], id, s'.memory.failures[id]);
  }

  lemma PromptKeepsOrigin(s: Service, id: Id, took: nat, columns: Option<seq<Column>>)
    requires MarksAreFromFailures(s)
    ensures MarksAreFromFailures(Apply(s, Prompt(id, took, columns)))
  {
    var s' := Apply(s, Prompt(id, took, columns));
    var (_, answer) := Prompting(s.memory, id, s.clock, Remote(s.clock + took, columns));
    RoundMarks(s, id, took, columns);
    hide Prompting, Recording, ColumnsOrigin;
    forall k | k in s'.memory.failures ensures MarkIsFromFailure(s', k) {
      if k != id { assert SameAt(s.memory.failures, s'.memory.failures, k); }
      if k == id && answer.Broken? {
        assert Blocks(s', s'.attempts[|s.attempts|], id, s'.memory.failures[id]);
      } else {
        MarkStays(s, s', k);
      }
    }
  }

  lemma StepKeepsOrigin(s: Service, step: Step)
    requires MarksAreFromFailures(s)
    ensures MarksAreFromFailures(Apply(s, step))
  {
    var s' := Apply(s, step);
    match step {
      case Prompt(id, took, columns) => PromptKeepsOrigin(s, id, took, columns);
      case Replace(entries) => hide MarkIsFromFailure;
        if s'.generation == s.generation { assert s' == s; }
      case AskTables(id, refresh, took, reply) =>
        CallsKeepFailures(s.memory, id, refresh, s.clock, Remote(s.clock + took, reply));
        hide ListingTables, Recording;
        forall k | k in s'.memory.failures ensures MarkIsFromFailure(s', k) { MarkStays(s, s', k); }
      case AskColumns(id, refresh, took, columns) =>
        ColumnsTouchOwnEntry(s.memory, id, refresh, s.clock, Remote(s.clock + took, columns));
        hide ListingColumns, Recording, ColumnsOrigin;
        forall k | k in s'.memory.failures ensures MarkIsFromFailure(s', k) { MarkStays(s, s', k); }
      case Wait(seconds) =>
        forall k | k in s'.memory.failures ensures MarkIsFromFailure(s', k) { MarkStays(s, s', k); }
    }
  }

  lemma {:induction false} MarksAlwaysComeFromFailures(steps: seq<Step>)
    ensures MarksAreFromFailures(Execute(steps))
  {
    if steps == [] {
    } else {
      MarksAlwaysComeFromFailures(steps[..|steps| - 1]);
      StepKeepsOrigin(Execute(steps[..|steps| - 1]), steps[|steps| - 1]);
    }
  }

  /**
    A usable datasource is passed over if and only if a read of it failed less than sixty seconds ago, since the reload.
   */
  lemma PromptPassesOverIff(steps: seq<Step>, id: Id, took: nat, columns: Option<seq<Column>>)
    requires Usable(Execute(steps).memory, id)
    ensures
      var s := Execute(steps);
      Prompting(s.memory, id, s.clock, Remote(s.clock + took, columns)).1.Refused? <==>
        exists i :: 0 <= i < |s.attempts| && FailedRecently(s, s.attempts[i], id)
  {
    hide Execute, Prompting, Usable, FailuresAreMarked, AttemptsAreApart, MarksAreFromFailures;
    var s := Execute(steps);
    MarksAreKept(steps);
    MarksAlwaysComeFromFailures(steps);
    RefusedWhileCooling(s.memory, id, s.clock, Remote(s.clock + took, columns));
    CoolingIff(s, id);
  }

  lemma CoolingIff(s: Service, id: Id)
    requires FailuresAreMarked(s) && MarksAreFromFailures(s)
    ensures Cooling(s.memory, id, s.clock) <==>
        exists i :: 0 <= i < |s.attempts| && FailedRecently(s, s.attempts[i], id)
  {
    if Cooling(s.memory, id, s.clock) {
      assert MarkIsFromFailure(s, id);
      var i :| 0 <= i < |s.attempts| && Blocks(s, s.attempts[i], id, s.memory.failures[id]);
      assert FailedRecently(s, s.attempts[i], id);
    }
    forall i | 0 <= i < |s.attempts| && FailedRecently(s, s.attempts[i], id) ensures Cooling(s.memory, id, s.clock) {
      assert IsMarked(s, s.attempts[i]);
    }
  }

  /** In every run, once sixty seconds have passed the prompt comes back to every usable datasource. */
  lemma PromptComesBack(steps: seq<Step>, seconds: nat, id: Id, took: nat, columns: Option<seq<Column>>)
    requires Usable(Execute(steps).memory, id) && seconds >= 60
    ensures
      var s := Execute(steps + [Wait(seconds)]);
      Usable(s.memory, id) && !Prompting(s.memory, id, s.clock, Remote(s.clock + took, columns)).1.Refused?
  {
    assert (steps + [Wait(seconds)])[..|steps|] == steps;
    var s := Execute(steps + [Wait(seconds)]);
    assert s == Execute(steps).(clock := Execute(steps).clock + seconds);
    MarksAreKept(steps);
    hide Execute, Prompting, Usable, FailuresAreMarked, MarksAreFromFailures;
    PromptPassesOverIff(steps + [Wait(seconds)], id, took, columns);
  }

  predicate FailedRecently(s: Service, a: Attempt, id: Id) {
    a.id == id && !a.ok && a.generation == s.generation && s.clock < a.end + SCHEMA_FAILURE_COOLDOWN
  }

  lemma RefusedWhileCooling(m: Memory, id: Id, now: int, remote: Remote<seq<Column>>)
    requires Usable(m, id)
    ensures Prompting(m, id, now, remote).1.Refused? <==> Cooling(m, id, now)
  {
    hide ColumnsKey, Targets, Listing, IsStale;
  }
}
