/**
  One-time codes in front of two destructive chat commands: `/memory clear` and `/delete-data`.

  The clock and the random six-digit code are parameters, so codes may repeat and may be guessed.
  Commands are handled one after the other.
 */
module Confirmations {
  import opened Wrappers

  type Key = string

  datatype Tenant = Tenant(tenantId: string, personalTenantId: Option<string>) {
    function PrivateKey(): Key {
      if personalTenantId.Some? && personalTenantId.value != "" then personalTenantId.value else tenantId
    }
  }

  /** Who sent a command, and which services the bot has. */
  datatype Context = Context(tenant: Option<Tenant>, organization: bool, memory: bool, registry: bool) {
    function PrivateKey(): Key {
      if tenant.Some? then tenant.value.PrivateKey() else ""
    }

    function TenantId(): Key {
      if tenant.Some? then tenant.value.tenantId else ""
    }
  }

  /** `ConfirmDelete` carries all words of the message, its own name included. */
  datatype Command =
    | AskClear
    | ConfirmClear(code: string)
    | AskDelete
    | ConfirmDelete(words: seq<string>)

  datatype Outcome = Disabled | Unsupported | Issued(code: string) | Rejected | Mismatched | Executed

  datatype Pending = Pending(code: string, expires: int)

  type Pendings = map<Key, Pending>

  const LIFETIME_SECONDS := 300

  /** The two tables of the bot. */
  datatype Tables = Tables(deletions: Pendings, clears: Pendings)

  function Timely(pendings: Pendings, key: Key, now: int): bool {
    key in pendings && now < pendings[key].expires
  }

  function Handle(tables: Tables, context: Context, command: Command, now: int, drawn: string): (Tables, Outcome) {
    var key := context.PrivateKey();
    match command
    case AskClear =>
      if context.tenant.None? || !context.memory then (tables, Disabled)
      else (tables.(clears := tables.clears[key := Pending(drawn, now + LIFETIME_SECONDS)]), Issued(drawn))
    case ConfirmClear(code) =>
      if context.tenant.None? || !context.memory then (tables, Disabled)
      else
        var used := tables.(clears := tables.clears - {key});
        if !Timely(tables.clears, key, now) || code != tables.clears[key].code then (used, Rejected)
        else (used, Executed)
    case AskDelete =>
      if context.organization then (tables.(deletions := tables.deletions - {context.TenantId()}), Unsupported)
      else if context.tenant.None? then (tables, Disabled)
      else (tables.(deletions := tables.deletions[key := Pending(drawn, now + LIFETIME_SECONDS)]), Issued(drawn))
    case ConfirmDelete(words) =>
      var used := tables.(deletions := tables.deletions - {key});
      if context.organization then (used, Unsupported)
      else if context.tenant.None? || !context.registry then (tables, Disabled)
      else if |words| != 2 || !Timely(tables.deletions, key, now) then (used, Rejected)
      else if words[1] != tables.deletions[key].code then (tables, Mismatched)
      else (used.(clears := used.clears - {key}), Executed)
  }

  /** The bot itself; `deletionPending` and `memoryClearPending` are changed in place. */
  class MessageBot {
    var deletionPending: Pendings
    var memoryClearPending: Pendings

    constructor ()
      ensures Contents() == Tables(map[], map[])
    {
      deletionPending, memoryClearPending := map[], map[];
    }

    function Contents(): Tables
      reads this
    {
      Tables(deletionPending, memoryClearPending)
    }

    method ClearMemory(context: Context, code: Option<string>, now: int, drawn: string) returns (outcome: Outcome)
      modifies this
      ensures (Contents(), outcome) ==
              Handle(old(Contents()), context, if code.Some? then ConfirmClear(code.value) else AskClear, now, drawn)
    {
      if context.tenant.None? || !context.memory { return Disabled; }
      var key := context.PrivateKey();
      match code {
        case None =>
          memoryClearPending := memoryClearPending[key := Pending(drawn, now + LIFETIME_SECONDS)];
          outcome := Issued(drawn);
        case Some(code) =>
          var right := key in memoryClearPending && now < memoryClearPending[key].expires &&
                       code == memoryClearPending[key].code;
          outcome := if right then Executed else Rejected;
          memoryClearPending := memoryClearPending - {key};
      }
    }

    method DeleteData(context: Context, now: int, drawn: string) returns (outcome: Outcome)
      modifies this`deletionPending
      ensures (Contents(), outcome) == Handle(old(Contents()), context, AskDelete, now, drawn)
    {
      if context.organization {
        deletionPending := deletionPending - {context.TenantId()};
        return Unsupported;
      }
      if context.tenant.None? { return Disabled; }
      deletionPending := deletionPending[context.PrivateKey() := Pending(drawn, now + LIFETIME_SECONDS)];
      outcome := Issued(drawn);
    }

    method ConfirmDeletion(context: Context, words: seq<string>, now: int, drawn: string) returns (outcome: Outcome)
      modifies this
      ensures (Contents(), outcome) == Handle(old(Contents()), context, ConfirmDelete(words), now, drawn)
    {
      var key := context.PrivateKey();
      if context.organization {
        deletionPending := deletionPending - {key};
        return Unsupported;
      }
      if context.tenant.None? || !context.registry { return Disabled; }
      if |words| != 2 || key !in deletionPending || now >= deletionPending[key].expires {
        deletionPending := deletionPending - {key};
        return Rejected;
      }
      if words[1] != deletionPending[key].code { return Mismatched; }
      deletionPending := deletionPending - {key};
      memoryClearPending := memoryClearPending - {key};
      outcome := Executed;
    }
  }

  // ---------------------------------------------------------------- runs and what they said

  datatype Message = Message(context: Context, command: Command, waited: nat, drawn: string)

  /** What an observer of the conversation sees of one handled command. */
  datatype Event = Event(context: Context, command: Command, outcome: Outcome, time: int)

  datatype Run = Run(tables: Tables, clock: int, log: seq<Event>)

  function Execute(messages: seq<Message>): Run {
    if messages == [] then Run(Tables(map[], map[]), 0, [])
    else Receive(Execute(messages[..|messages| - 1]), messages[|messages| - 1])
  }

  function Receive(r: Run, m: Message): Run {
    var now := r.clock + m.waited;
    var (tables, outcome) := Handle(r.tables, m.context, m.command, now, m.drawn);
    Run(tables, now, r.log + [Event(m.context, m.command, outcome, now)])
  }

  datatype Table = Deletions | Clears

  function Select(tables: Tables, table: Table): Pendings {
    if table.Deletions? then tables.deletions else tables.clears
  }

  /** The event puts a new code up. */
  predicate Issues(e: Event, table: Table) {
    e.outcome.Issued? && if table.Deletions? then e.command.AskDelete? else e.command.AskClear?
  }

  /** The subject whose code, if any, the event replaces, accepts or cancels. */
  function Touched(e: Event, table: Table): Option<Key> {
    match table
    case Deletions =>
      if e.command.AskDelete? && e.outcome.Issued? then Some(e.context.PrivateKey())
      else if e.command.AskDelete? && e.outcome.Unsupported? then Some(e.context.TenantId())
      else if e.command.ConfirmDelete? && (e.outcome.Unsupported? || e.outcome.Rejected? || e.outcome.Executed?)
      then Some(e.context.PrivateKey())
      else None
    case Clears =>
      if e.command.AskClear? && e.outcome.Issued? then Some(e.context.PrivateKey())
      else if e.command.ConfirmClear? && (e.outcome.Rejected? || e.outcome.Executed?) then Some(e.context.PrivateKey())
      else if e.command.ConfirmDelete? && e.outcome.Executed? then Some(e.context.PrivateKey())
      else None
  }

  /** Where the log last put up a code for the subject that nothing has touched since. */
  function Outstanding(log: seq<Event>, table: Table, key: Key): (at: Option<nat>)
    ensures at.Some? ==> at.value < |log| && Issues(log[at.value], table) && Touched(log[at.value], table) == Some(key)
  {
    if log == [] then None
    else
      var n := |log| - 1;
      if Touched(log[n], table) == Some(key)
      then (if Issues(log[n], table) then Some(n) else None)
      else Outstanding(log[..n], table, key)
  }

  /** The table holds exactly the codes that are outstanding according to the log. */
  ghost predicate Faithful(r: Run, table: Table, key: Key) {
    var at, pendings := Outstanding(r.log, table, key), Select(r.tables, table);
    if at.None? then key !in pendings
    else key in pendings &&
         pendings[key] == Pending(r.log[at.value].outcome.code, r.log[at.value].time + LIFETIME_SECONDS)
  }

  /** One more event replaces or cancels the outstanding code of the subject it touches. */
  lemma OutstandingOfMore(log: seq<Event>, e: Event, table: Table, key: Key)
    ensures Outstanding(log + [e], table, key) ==
            if Touched(e, table) != Some(key) then Outstanding(log, table, key)
            else if Issues(e, table) then Some(|log|) else None
  {
    assert (log + [e])[..|log|] == log;
  }

  /** The event that handling a command leaves in the log. */
  function Logged(r: Run, m: Message): Event {
    var now := r.clock + m.waited;
    Event(m.context, m.command, Handle(r.tables, m.context, m.command, now, m.drawn).1, now)
  }

  predicate SameAt(before: Pendings, after: Pendings, key: Key) {
    (key in after <==> key in before) && (key in after ==> after[key] == before[key])
  }

  /** What an event touches in a table is what handling its command changed there. */
  lemma HandleTouches(tables: Tables, context: Context, command: Command, now: int, drawn: string, table: Table,
      key: Key)
    ensures
      var (tables', outcome) := Handle(tables, context, command, now, drawn);
      var e, before, after := Event(context, command, outcome, now), Select(tables, table), Select(tables', table);
      if Touched(e, table) != Some(key) then SameAt(before, after, key)
      else if Issues(e, table) then key in after && after[key] == Pending(e.outcome.code, now + LIFETIME_SECONDS)
      else key !in after
  {
    hide Context.PrivateKey, Context.TenantId;
  }

  lemma ReceiveKeepsFaith(r: Run, m: Message, table: Table, key: Key)
    requires Faithful(r, table, key)
    ensures Faithful(Receive(r, m), table, key)
  {
    var e := Logged(r, m);
    HandleTouches(r.tables, m.context, m.command, e.time, m.drawn, table, key);
    OutstandingOfMore(r.log, e, table, key);
    hide Handle, Outstanding, Touched, Select;
  }

  lemma {:induction false} TablesFollowTheLog(messages: seq<Message>, table: Table, key: Key)
    ensures Faithful(Execute(messages), table, key)
  {
    if messages == [] {
    } else {
      TablesFollowTheLog(messages[..|messages| - 1], table, key);
      ReceiveKeepsFaith(Execute(messages[..|messages| - 1]), messages[|messages| - 1], table, key);
    }
  }

  // ---------------------------------------------------------------- when a confirmation is carried out

  /** `code` is the outstanding one and is not five minutes old. */
  ghost predicate Good(log: seq<Event>, table: Table, key: Key, code: string, now: int) {
    var at := Outstanding(log, table, key);
    at.Some? && now < log[at.value].time + LIFETIME_SECONDS && log[at.value].outcome.code == code
  }

  /**
    `/memory clear <code>` clears exactly for the outstanding code in time. Whatever happens, no code
    is outstanding afterwards: a wrong or late one burns the pending one.
   */
  lemma ClearRunsIff(messages: seq<Message>, m: Message)
    requires m.command.ConfirmClear? && m.context.tenant.Some? && m.context.memory
    ensures
      var r, r' := Execute(messages), Receive(Execute(messages), m);
      var key := m.context.PrivateKey();
      && (r'.log[|r.log|].outcome == if Good(r.log, Clears, key, m.command.code, r'.clock) then Executed else Rejected)
      && Outstanding(r'.log, Clears, key).None?
      && r'.tables.deletions == r.tables.deletions
  {
    var r, key := Execute(messages), m.context.PrivateKey();
    TablesFollowTheLog(messages, Clears, key);
    OutstandingOfMore(r.log, Logged(r, m), Clears, key);
    hide Execute, Outstanding, Context.PrivateKey;
  }

  /** A pending code is the outstanding one. */
  lemma PendingIsOutstanding(r: Run, table: Table, key: Key, now: int)
    requires Faithful(r, table, key)
    ensures
      var at, pendings := Outstanding(r.log, table, key), Select(r.tables, table);
      && (Timely(pendings, key, now) <==> at.Some? && now < r.log[at.value].time + LIFETIME_SECONDS)
      && (Timely(pendings, key, now) ==> pendings[key].code == r.log[at.value].outcome.code)
  {
    hide Outstanding, Touched, Select;
  }

  lemma ConfirmationDecides(tables: Tables, context: Context, words: seq<string>, now: int, drawn: string)
    requires context.tenant.Some? && context.registry && !context.organization
    ensures
      var (tables', outcome) := Handle(tables, context, ConfirmDelete(words), now, drawn);
      var key := context.PrivateKey();
      var timely := |words| == 2 && Timely(tables.deletions, key, now);
      && (outcome.Executed? || outcome.Mismatched? || outcome.Rejected?)
      && (outcome.Executed? <==> timely && words[1] == tables.deletions[key].code)
      && (outcome.Mismatched? <==> timely && words[1] != tables.deletions[key].code)
      && (outcome.Mismatched? ==> tables' == tables)
      && var e := Event(context, ConfirmDelete(words), outcome, now);
         Touched(e, Deletions) == (if outcome.Mismatched? then None else Some(key)) && !Issues(e, Deletions)
  {
    hide Context.PrivateKey;
  }

  /**
    `/confirm-delete` deletes exactly for two words, the second being the outstanding code, in time.
    A wrong code in time leaves the outstanding one usable; anything else cancels it.
   */
  lemma DeletionRunsIff(messages: seq<Message>, m: Message)
    requires m.command.ConfirmDelete? && m.context.tenant.Some? && m.context.registry && !m.context.organization
    ensures
      var r, r' := Execute(messages), Receive(Execute(messages), m);
      var key, words, outcome := m.context.PrivateKey(), m.command.words, r'.log[|r.log|].outcome;
      var at := Outstanding(r.log, Deletions, key);
      && (outcome.Executed? <==> |words| == 2 && Good(r.log, Deletions, key, words[1], r'.clock))
      && (outcome.Mismatched? <==>
            |words| == 2 && at.Some? && Good(r.log, Deletions, key, r.log[at.value].outcome.code, r'.clock)
            && words[1] != r.log[at.value].outcome.code)
      && Outstanding(r'.log, Deletions, key) == (if outcome.Mismatched? then at else None)
      && (outcome.Mismatched? ==> r'.tables == r.tables)
  {
    hide Execute, Outstanding, Handle, Touched, Issues, Timely, Faithful, Context.PrivateKey;
    var r, key := Execute(messages), m.context.PrivateKey();
    var e := Logged(r, m);
    TablesFollowTheLog(messages, Deletions, key);
    PendingIsOutstanding(r, Deletions, key, e.time);
    ConfirmationDecides(r.tables, m.context, m.command.words, e.time, m.drawn);
    OutstandingOfMore(r.log, e, Deletions, key);
  }

  /**
    In an organization channel `/delete-data` cancels the code filed under the tenant, while codes are
    filed under the private key: so it cancels the sender's outstanding code only when these are one.
   */
  lemma OrganizationRequestCancelsIff(messages: seq<Message>, m: Message)
    requires m.command.AskDelete? && m.context.organization
    ensures
      var r, r' := Execute(messages), Receive(Execute(messages), m);
      var key := m.context.PrivateKey();
      && r'.log[|r.log|].outcome == Unsupported
      && (Outstanding(r'.log, Deletions, key).None? <==>
            Outstanding(r.log, Deletions, key).None? || key == m.context.TenantId())
  {
  }

  /** The subject of a command: the sender's personal tenant, else the tenant, else nobody. */
  lemma SubjectIs(context: Context)
    ensures context.tenant.None? ==> context.PrivateKey() == "" && context.TenantId() == ""
    ensures context.tenant.Some? ==>
      var tenant := context.tenant.value;
      && context.TenantId() == tenant.tenantId
      && (tenant.personalTenantId.None? || tenant.personalTenantId == Some("") ==>
            context.PrivateKey() == tenant.tenantId)
      && (tenant.personalTenantId.Some? && tenant.personalTenantId != Some("") ==>
            Some(context.PrivateKey()) == tenant.personalTenantId)
  {
  }

  /** What is refused for want of a tenant or a service, which changes nothing, and for the channel it comes from. */
  lemma CommandIsRefusedIff(messages: seq<Message>, m: Message)
    ensures
      var r, r' := Execute(messages), Receive(Execute(messages), m);
      var outcome, context := r'.log[|r.log|].outcome, m.context;
      var deletion := m.command.AskDelete? || m.command.ConfirmDelete?;
      && (outcome.Unsupported? <==> deletion && context.organization)
      && (outcome.Disabled? <==>
            if deletion
            then !context.organization && (context.tenant.None? || (m.command.ConfirmDelete? && !context.registry))
            else context.tenant.None? || !context.memory)
      && (outcome.Disabled? ==> r'.tables == r.tables)
      && (outcome.Unsupported? && m.command.ConfirmDelete? ==>
            Outstanding(r'.log, Deletions, context.PrivateKey()).None?)
  {
    hide Execute, Outstanding, Context.PrivateKey, Context.TenantId;
    var r := Execute(messages);
    OutstandingOfMore(r.log, Logged(r, m), Deletions, m.context.PrivateKey());
  }

  /** A command concerns its own subject alone, but for a request for deletion in an organization channel. */
  lemma OtherSubjectsAreUnaffected(messages: seq<Message>, m: Message, table: Table, key: Key)
    requires key != m.context.PrivateKey()
    requires m.command.AskDelete? && m.context.organization ==> key != m.context.TenantId()
    ensures
      var r, r' := Execute(messages), Receive(Execute(messages), m);
      Outstanding(r'.log, table, key) == Outstanding(r.log, table, key)
  {
    hide Execute, Outstanding, Context.PrivateKey, Context.TenantId;
    var r := Execute(messages);
    OutstandingOfMore(r.log, Logged(r, m), table, key);
  }

  /**
    A request by a sender with a tenant is answered with the drawn code where the service is there,
    and from then on that code is the outstanding one.
   */
  lemma RequestsAreIssued(messages: seq<Message>, m: Message)
    requires m.context.tenant.Some?
    ensures
      var r, r' := Execute(messages), Receive(Execute(messages), m);
      var key, outcome := m.context.PrivateKey(), r'.log[|r.log|].outcome;
      && (m.command.AskClear? && m.context.memory ==>
            outcome == Issued(m.drawn) && Outstanding(r'.log, Clears, key) == Some(|r.log|))
      && (m.command.AskDelete? && !m.context.organization ==>
            outcome == Issued(m.drawn) && Outstanding(r'.log, Deletions, key) == Some(|r.log|))
  {
    hide Execute, Outstanding, Context.PrivateKey;
    var r := Execute(messages);
    OutstandingOfMore(r.log, Logged(r, m), Clears, m.context.PrivateKey());
    OutstandingOfMore(r.log, Logged(r, m), Deletions, m.context.PrivateKey());
  }

  /** The event carries out what a code of the table stands for. */
  predicate Executes(e: Event, table: Table) {
    e.outcome.Executed? && if table.Deletions? then e.command.ConfirmDelete? else e.command.ConfirmClear?
  }

  function GivenCode(e: Event): string {
    if e.command.ConfirmClear? then e.command.code
    else if e.command.ConfirmDelete? && |e.command.words| == 2 then e.command.words[1]
    else ""
  }

  lemma {:induction false} LogGrows(messages: seq<Message>, n: nat)
    requires n <= |messages|
    ensures |Execute(messages).log| == |messages|
    ensures Execute(messages).log[..n] == Execute(messages[..n]).log
  {
    if n == |messages| {
      assert messages[..n] == messages;
      if n > 0 { LogGrows(messages[..n - 1], n - 1); }
    } else {
      LogGrows(messages[..|messages| - 1], n);
      assert messages[..|messages| - 1][..n] == messages[..n];
    }
  }

  /** Whatever was carried out was confirmed with a code given to that very subject, less than five minutes before. */
  lemma ExecutedHadCode(messages: seq<Message>, j: nat, table: Table)
    requires j < |messages|
    ensures |Execute(messages).log| == |messages|
    ensures
      var log := Execute(messages).log;
      Executes(log[j], table) ==> Good(log[..j], table, log[j].context.PrivateKey(), GivenCode(log[j]), log[j].time)
  {
    LogGrows(messages, j);
    LogGrows(messages, j + 1);
    var before, m := messages[..j], messages[j];
    LogGrows(before, j);
    assert messages[..j + 1][..j] == before && before[..j] == before;
    var r, log := Execute(before), Execute(messages).log;
    assert Execute(messages[..j + 1]) == Receive(r, m);
    TablesFollowTheLog(before, table, m.context.PrivateKey());
    ExecutedWasGood(r, m, table);
    hide *;
    assert log[j] == log[..j + 1][j];
  }

  lemma ExecutedWasGood(r: Run, m: Message, table: Table)
    requires Faithful(r, table, m.context.PrivateKey())
    ensures |Receive(r, m).log| == |r.log| + 1
    ensures
      var e := Receive(r, m).log[|r.log|];
      Executes(e, table) ==> Good(r.log, table, e.context.PrivateKey(), GivenCode(e), e.time)
  {
  }

  /** Once touched, a code is never outstanding again. */
  lemma {:induction false} TouchedIsGone(log: seq<Event>, table: Table, key: Key, j: nat, n: nat)
    requires j < n <= |log| && Touched(log[j], table) == Some(key)
    ensures Outstanding(log[..n], table, key).Some? ==> j <= Outstanding(log[..n], table, key).value
  {
    var last := n - 1;
    assert log[..n][last] == log[last] && log[..n][..last] == log[..last];
    if last > j {
      TouchedIsGone(log, table, key, j, last);
    }
  }

  /** Two carried-out confirmations of one subject never rest on the same code. */
  lemma EachCodeWorksOnce(messages: seq<Message>, i: nat, j: nat, table: Table)
    requires i < j < |messages|
    ensures |Execute(messages).log| == |messages|
    ensures
      var log := Execute(messages).log;
      Executes(log[i], table) && Executes(log[j], table) &&
      log[i].context.PrivateKey() == log[j].context.PrivateKey() ==>
        var key := log[i].context.PrivateKey();
        && Outstanding(log[..i], table, key).Some? && Outstanding(log[..j], table, key).Some?
        && Outstanding(log[..i], table, key).value < i < Outstanding(log[..j], table, key).value < j
  {
    ExecutedHadCode(messages, i, table);
    ExecutedHadCode(messages, j, table);
    var log := Execute(messages).log;
    if Executes(log[i], table) {
      TouchedIsGone(log, table, log[i].context.PrivateKey(), i, j);
    }
  }

  // ---------------------------------------------------------------- what becomes of every code

  datatype Fate = Spent | Burned | Superseded | Wiped

  /** What the event does to the code that was outstanding for its subject. */
  function FateOf(before: seq<Event>, e: Event, table: Table): Option<Fate> {
    var key := Touched(e, table);
    if key.None? || Outstanding(before, table, key.value).None? then None
    else if Issues(e, table) then Some(Superseded)
    else if Executes(e, table) then Some(Spent)
    else if table.Clears? && e.command.ConfirmDelete? then Some(Wiped)
    else Some(Burned)
  }

  function Met(log: seq<Event>, table: Table, fate: Fate): nat {
    if log == [] then 0
    else
      var n := |log| - 1;
      Met(log[..n], table, fate) + if FateOf(log[..n], log[n], table) == Some(fate) then 1 else 0
  }

  function Given(log: seq<Event>, table: Table): nat {
    if log == [] then 0
    else Given(log[..|log| - 1], table) + if Issues(log[|log| - 1], table) then 1 else 0
  }

  lemma SizeWithout(pendings: Pendings, key: Key)
    ensures |pendings - {key}| == |pendings| - if key in pendings then 1 else 0
  {
  }

  lemma SizeWith(pendings: Pendings, key: Key, p: Pending)
    ensures |pendings[key := p]| == |pendings| + if key in pendings then 0 else 1
  {
  }

  /** The table changes exactly where the event says so. */
  lemma EffectOnTable(r: Run, m: Message, table: Table)
    ensures
      var r' := Receive(r, m);
      var before, after, e := Select(r.tables, table), Select(r'.tables, table), r'.log[|r.log|];
      match Touched(e, table)
      case None => after == before && !Issues(e, table)
      case Some(key) =>
        if Issues(e, table) then after == before[key := Pending(e.outcome.code, e.time + LIFETIME_SECONDS)]
        else after == before - {key}
  {
  }

  ghost predicate Balanced(r: Run, table: Table) {
    Given(r.log, table) ==
      Met(r.log, table, Spent) + Met(r.log, table, Burned) + Met(r.log, table, Superseded) + Met(r.log, table, Wiped)
      + |Select(r.tables, table)|
  }

  lemma CountsOfNext(log: seq<Event>, e: Event, table: Table)
    ensures Given(log + [e], table) == Given(log, table) + if Issues(e, table) then 1 else 0
    ensures forall fate ::
              Met(log + [e], table, fate) ==
              Met(log, table, fate) + if FateOf(log, e, table) == Some(fate) then 1 else 0
  {
  }

  lemma FateMeansPending(r: Run, e: Event, table: Table)
    requires forall key :: Faithful(r, table, key)
    ensures Touched(e, table).Some? ==>
              (FateOf(r.log, e, table).Some? <==> Touched(e, table).value in Select(r.tables, table))
    ensures FateOf(r.log, e, table).Some? && Issues(e, table) ==> FateOf(r.log, e, table) == Some(Superseded)
    ensures Touched(e, table).None? ==> FateOf(r.log, e, table).None?
  {
    if Touched(e, table).Some? {
      assert Faithful(r, table, Touched(e, table).value);
    }
  }

  lemma EffectOnSize(r: Run, m: Message, table: Table)
    requires forall key :: Faithful(r, table, key)
    ensures
      var r' := Receive(r, m);
      var e := r'.log[|r.log|];
      |Select(r'.tables, table)| == |Select(r.tables, table)|
        + (if Issues(e, table) then 1 else 0) - (if FateOf(r.log, e, table).Some? then 1 else 0)
  {
    var before, e := Select(r.tables, table), Receive(r, m).log[|r.log|];
    EffectOnTable(r, m, table);
    FateMeansPending(r, e, table);
    hide Receive, Handle, Faithful, FateOf, Issues, Select, Touched;
    if Touched(e, table).Some? {
      var key := Touched(e, table).value;
      if Issues(e, table) {
        SizeWith(before, key, Pending(e.outcome.code, e.time + LIFETIME_SECONDS));
      } else {
        SizeWithout(before, key);
      }
    }
  }

  lemma ReceiveKeepsBalance(r: Run, m: Message, table: Table)
    requires Balanced(r, table)
    requires forall key :: Faithful(r, table, key)
    ensures Balanced(Receive(r, m), table)
  {
    var e := Receive(r, m).log[|r.log|];
    assert Receive(r, m).log == r.log + [e];
    EffectOnSize(r, m, table);
    CountsOfNext(r.log, e, table);
    hide Receive, Handle, Faithful, FateOf, Met, Given, Issues, Select, Touched;
  }

  /** What the fates stand for, in every run. */
  lemma FatesAre(messages: seq<Message>, m: Message, table: Table)
    ensures
      var r := Execute(messages);
      var e := Logged(r, m);
      var fate := FateOf(r.log, e, table);
      && (fate == Some(Spent) <==> Executes(e, table))
      && (fate == Some(Superseded) <==>
            Issues(e, table) && Outstanding(r.log, table, e.context.PrivateKey()).Some?)
      && (fate == Some(Wiped) <==>
            && table.Clears? && e.command.ConfirmDelete? && e.outcome.Executed?
            && Outstanding(r.log, table, e.context.PrivateKey()).Some?)
      && (fate == Some(Burned) <==>
            && !Issues(e, table) && !e.outcome.Executed?
            && Touched(e, table).Some? && Outstanding(r.log, table, Touched(e, table).value).Some?)
  {
    hide Execute, Outstanding, Context.PrivateKey, Context.TenantId;
    var r := Execute(messages);
    TablesFollowTheLog(messages, table, m.context.PrivateKey());
    ExecutionTouches(r, m, table);
  }

  lemma ExecutionTouches(r: Run, m: Message, table: Table)
    requires Faithful(r, table, m.context.PrivateKey())
    ensures
      var e := Logged(r, m);
      Executes(e, table) ==>
        && Touched(e, table) == Some(m.context.PrivateKey())
        && Outstanding(r.log, table, m.context.PrivateKey()).Some?
  {
    hide Outstanding, Context.PrivateKey, Context.TenantId;
  }

  /** Every code given out was spent, burned, superseded or wiped exactly once, or is still pending. */
  lemma {:induction false} CodesAreConserved(messages: seq<Message>, table: Table)
    ensures Balanced(Execute(messages), table)
  {
    if messages == [] {
    } else {
      var before := messages[..|messages| - 1];
      CodesAreConserved(before, table);
      forall key ensures Faithful(Execute(before), table, key) {
        TablesFollowTheLog(before, table, key);
      }
      ReceiveKeepsBalance(Execute(before), messages[|messages| - 1], table);
    }
  }
}
