/**
  The per-user cache of typing tickets and its exponential backoff, used sequentially.

  The server's answer is a parameter of each call; `Ticket("")` is an answer without a ticket.
 */
module TypingTickets {

  const TICKET_TTL_SECONDS := 86400.0
  const RETRY_INITIAL_SECONDS := 2.0
  const RETRY_MAX_SECONDS := 3600.0

  datatype Answer = Ticket(text: string) | SessionExpired | Failed

  datatype Reply = Returned(ticket: string) | RaisedSessionExpired | RaisedError

  datatype Cached = Cached(ticket: string, until: real)

  datatype Retry = Retry(notBefore: real, nextDelay: real)

  datatype State = State(tickets: map<string, Cached>, retries: map<string, Retry>)

  const EMPTY := State(map[], map[])

  function Capped(delay: real): real {
    if delay < RETRY_MAX_SECONDS then delay else RETRY_MAX_SECONDS
  }

  /** A call reaches the server iff neither a live ticket nor a running delay answers it. */
  predicate Requests(s: State, user: string, now: real) {
    && !(user in s.tickets && now < s.tickets[user].until)
    && !(user in s.retries && now < s.retries[user].notBefore)
  }

  /** The state after a call. */
  function After(s: State, user: string, now: real, answer: Answer): State {
    if !Requests(s, user, now) then
      s
    else
      match answer
      case SessionExpired => s
      case Failed =>
        var delay := if user in s.retries then s.retries[user].nextDelay else RETRY_INITIAL_SECONDS;
        s.(retries := s.retries[user := Retry(now + delay, Capped(delay * 2.0))])
      case Ticket(text) =>
        if text != "" then
          State(s.tickets[user := Cached(text, now + TICKET_TTL_SECONDS)], s.retries - {user})
        else
          s.(retries := s.retries[user := Retry(now + RETRY_INITIAL_SECONDS, RETRY_INITIAL_SECONDS * 2.0)])
  }

  function ReplyOf(s: State, user: string, now: real, answer: Answer): Reply {
    if user in s.tickets && now < s.tickets[user].until then Returned(s.tickets[user].ticket)
    else if user in s.retries && now < s.retries[user].notBefore then Returned("")
    else
      match answer
      case SessionExpired => RaisedSessionExpired
      case Failed => RaisedError
      case Ticket(text) => Returned(text)
  }

  class ILinkClient {
    var typingTickets: map<string, Cached>
    var typingRetries: map<string, Retry>

    function View(): State
      reads this
    {
      State(typingTickets, typingRetries)
    }

    constructor ()
      ensures View() == EMPTY
    {
      typingTickets, typingRetries := map[], map[];
    }

    /** `get_typing_ticket` */
    method GetTypingTicket(user: string, now: real, answer: Answer) returns (reply: Reply, requested: bool)
      modifies this
      ensures View() == After(old(View()), user, now, answer)
      ensures reply == ReplyOf(old(View()), user, now, answer)
      ensures requested == Requests(old(View()), user, now)
    {
      if user in typingTickets && now < typingTickets[user].until {
        return Returned(typingTickets[user].ticket), false;
      }
      if user in typingRetries && now < typingRetries[user].notBefore {
        return Returned(""), false;
      }
      requested := true;
      match answer {
        case SessionExpired =>
          reply := RaisedSessionExpired;
        case Failed =>
          var delay := if user in typingRetries then typingRetries[user].nextDelay else RETRY_INITIAL_SECONDS;
          typingRetries := typingRetries[user := Retry(now + delay, Capped(delay * 2.0))];
          reply := RaisedError;
        case Ticket(text) =>
          if text != "" {
            typingTickets := typingTickets[user := Cached(text, now + TICKET_TTL_SECONDS)];
            typingRetries := typingRetries - {user};
          } else {
            typingRetries := typingRetries[user := Retry(now + RETRY_INITIAL_SECONDS, RETRY_INITIAL_SECONDS * 2.0)];
          }
          reply := Returned(text);
      }
    }
  }

  // ---------------------------------------------------------------- whole runs

  datatype Call = Call(user: string, now: real, answer: Answer)

  function Run(calls: seq<Call>): State {
    if calls == [] then EMPTY
    else
      var last := calls[|calls| - 1];
      After(Run(calls[..|calls| - 1]), last.user, last.now, last.answer)
  }

  function Pow2(n: nat): nat {
    if n == 0 then 1 else 2 * Pow2(n - 1)
  }

  /** The delay imposed by the `i`-th failure in a row. */
  function Delay(i: nat): real {
    Capped(Pow2(i) as real)
  }

  function SumOfDelays(n: nat): real {
    if n == 0 then 0.0 else SumOfDelays(n - 1) + Delay(n)
  }

  /**
    What the calls say about one user's failures: how many requests in a row failed (an answer
    without a ticket starts a row of its own), and when the row began and last grew.
   */
  datatype Row = NoFailures | Failing(count: nat, first: real, last: real)

  ghost function RowOf(calls: seq<Call>, user: string): Row {
    if calls == [] then
      NoFailures
    else
      var init, last := calls[..|calls| - 1], calls[|calls| - 1];
      var before := RowOf(init, user);
      if last.user != user || !Requests(Run(init), user, last.now) || last.answer == SessionExpired then before
      else if last.answer.Ticket? then
        if last.answer.text != "" then NoFailures else Failing(1, last.now, last.now)
      else
        match before
        case NoFailures => Failing(1, last.now, last.now)
        case Failing(n, first, _) => Failing(n + 1, first, last.now)
  }

  lemma DelayDoubles(i: nat)
    ensures Capped(Delay(i) * 2.0) == Delay(i + 1)
    ensures i >= 2 ==> 4.0 <= Delay(i) <= RETRY_MAX_SECONDS
  {
    if i > 2 {
      DelayDoubles(i - 1);
    }
  }

  /**
    After every run, the stored deadline of every user is the time of the last failure in a row plus
    min(2^n, 3600) for a row of n, the next delay in store is min(2^(n+1), 3600), and users without
    a row have nothing stored. Calls of other users do not matter.
   */
  lemma {:induction false} StoredRetryFollowsRow(calls: seq<Call>, user: string)
    ensures
      match RowOf(calls, user)
      case NoFailures => user !in Run(calls).retries
      case Failing(n, first, last) =>
        && n >= 1 && user in Run(calls).retries
        && Run(calls).retries[user] == Retry(last + Delay(n), Delay(n + 1))
        && 4.0 <= Run(calls).retries[user].nextDelay <= RETRY_MAX_SECONDS
  {
    if calls == [] {
    } else {
      var init := calls[..|calls| - 1];
      StoredRetryFollowsRow(init, user);
      assert Delay(1) == 2.0 && Delay(2) == 4.0;
      match RowOf(init, user) {
        case NoFailures =>
        case Failing(n, _, _) =>
          DelayDoubles(n + 1);
      }
      match RowOf(calls, user) {
        case NoFailures =>
        case Failing(n, _, _) =>
          DelayDoubles(n + 1);
      }
    }
  }

  /** No request is sent before the delay after the last failure in a row has passed. */
  lemma NoRequestBeforeDeadline(calls: seq<Call>, user: string, now: real)
    requires RowOf(calls, user).Failing?
    requires Requests(Run(calls), user, now)
    ensures now >= RowOf(calls, user).last + Delay(RowOf(calls, user).count)
  {
    StoredRetryFollowsRow(calls, user);
  }

  lemma {:induction false} RowSpansItsDelays(calls: seq<Call>, user: string)
    requires RowOf(calls, user).Failing?
    ensures RowOf(calls, user).count >= 1
    ensures RowOf(calls, user).last - RowOf(calls, user).first >= SumOfDelays(RowOf(calls, user).count - 1)
  {
    var init, last := calls[..|calls| - 1], calls[|calls| - 1];
    if RowOf(init, user).Failing? {
      RowSpansItsDelays(init, user);
      if Requests(Run(init), user, last.now) {
        NoRequestBeforeDeadline(init, user, last.now);
      }
    }
  }

  /** `n` failures in a row and the request after them span at least the sum of the `n` delays. */
  lemma RequestsAreSpreadOut(calls: seq<Call>, user: string, now: real)
    requires RowOf(calls, user).Failing?
    requires Requests(Run(calls), user, now)
    ensures now - RowOf(calls, user).first >= SumOfDelays(RowOf(calls, user).count)
    ensures RowOf(calls, user).count <= 11 ==>
      now - RowOf(calls, user).first >= Pow2(RowOf(calls, user).count + 1) as real - 2.0
  {
    RowSpansItsDelays(calls, user);
    NoRequestBeforeDeadline(calls, user, now);
    if RowOf(calls, user).count <= 11 {
      SumOfDelaysIsGeometric(RowOf(calls, user).count);
    }
  }

  lemma {:induction false} Pow2Monotone(m: nat, n: nat)
    requires m <= n
    ensures Pow2(m) <= Pow2(n)
    decreases n
  {
    if m < n {
      Pow2Monotone(m, n - 1);
    }
  }

  /** Up to the eleventh failure the cap plays no role. */
  lemma {:induction false} SumOfDelaysIsGeometric(n: nat)
    requires n <= 11
    ensures SumOfDelays(n) == Pow2(n + 1) as real - 2.0
  {
    if n == 0 {
    } else {
      SumOfDelaysIsGeometric(n - 1);
      Pow2Monotone(n, 11);
      assert Pow2(11) == 2 * Pow2(10) == 4 * Pow2(9) == 8 * Pow2(8) == 16 * Pow2(7) == 32 * Pow2(6);
      assert Pow2(6) == 2 * Pow2(5) == 4 * Pow2(4) == 8 * Pow2(3) == 16 * Pow2(2) == 32 * Pow2(1);
    }
  }

  /** From the twelfth failure on, the delay is an hour. */
  lemma DelayIsCappedIff(i: nat)
    ensures Delay(i) == RETRY_MAX_SECONDS <==> i >= 12
  {
    assert Pow2(12) == 2 * Pow2(11) == 4 * Pow2(10) == 8 * Pow2(9) == 16 * Pow2(8) == 32 * Pow2(7) == 64 * Pow2(6);
    assert Pow2(6) == 2 * Pow2(5) == 4 * Pow2(4) == 8 * Pow2(3) == 16 * Pow2(2) == 32 * Pow2(1);
    if i >= 12 {
      Pow2Monotone(12, i);
    } else {
      Pow2Monotone(i, 11);
    }
  }

  /** A call that brought a ticket to the cache. */
  ghost predicate Brought(calls: seq<Call>, i: nat, user: string, entry: Cached) {
    && i < |calls| && calls[i].user == user && entry.ticket != ""
    && calls[i].answer == Ticket(entry.ticket) && entry.until == calls[i].now + TICKET_TTL_SECONDS
    && Requests(Run(calls[..i]), user, calls[i].now)
  }

  lemma {:induction false} CacheHoldsReceivedTickets(calls: seq<Call>, user: string) returns (i: nat)
    requires user in Run(calls).tickets
    ensures Brought(calls, i, user, Run(calls).tickets[user])
  {
    var n := |calls| - 1;
    var init, last := calls[..n], calls[n];
    if last.user == user && Requests(Run(init), user, last.now) && last.answer.Ticket? && last.answer.text != "" {
      i := n;
    } else {
      i := CacheHoldsReceivedTickets(init, user);
      assert calls[..i] == init[..i];
    }
  }

  /**
    A ticket handed out without a request is one the same user received from the server less than
    24 hours earlier.
   */
  lemma CachedTicketIsRecent(calls: seq<Call>, user: string, now: real, answer: Answer) returns (i: nat)
    requires !Requests(Run(calls), user, now)
    requires ReplyOf(Run(calls), user, now, answer) != Returned("")
    ensures i < |calls| && calls[i].user == user && now < calls[i].now + TICKET_TTL_SECONDS
    ensures calls[i].answer.Ticket? && ReplyOf(Run(calls), user, now, answer) == Returned(calls[i].answer.text)
  {
    i := CacheHoldsReceivedTickets(calls, user);
  }

  /** A request is answered with what the server says. */
  lemma RequestIsAnswered(s: State, user: string, now: real, answer: Answer)
    requires Requests(s, user, now)
    ensures
      var reply := ReplyOf(s, user, now, answer);
      && (reply == RaisedSessionExpired <==> answer == SessionExpired)
      && (reply == RaisedError <==> answer == Failed)
      && (answer.Ticket? ==> reply == Returned(answer.text))
  {
  }

  /** Every call of the user comes before this time. */
  predicate AllBefore(calls: seq<Call>, user: string, deadline: real) {
    forall i :: 0 <= i < |calls| && calls[i].user == user ==> calls[i].now < deadline
  }

  lemma {:induction false} TicketStays(calls: seq<Call>, brought: Call, later: seq<Call>)
    requires Requests(Run(calls), brought.user, brought.now) && brought.answer.Ticket? && brought.answer.text != ""
    requires AllBefore(later, brought.user, brought.now + TICKET_TTL_SECONDS)
    ensures
      var s := Run(calls + [brought] + later);
      brought.user in s.tickets &&
      s.tickets[brought.user] == Cached(brought.answer.text, brought.now + TICKET_TTL_SECONDS)
    decreases |later|
  {
    var all := calls + [brought] + later;
    if later == [] {
      assert all[..|all| - 1] == calls && all[|all| - 1] == brought;
    } else {
      var n := |later| - 1;
      TicketStays(calls, brought, later[..n]);
      assert all[..|all| - 1] == calls + [brought] + later[..n] && all[|all| - 1] == later[n];
    }
  }

  /** For a day a received ticket is handed out without a request, whatever other calls come in between. */
  lemma ReceivedTicketIsReused(calls: seq<Call>, brought: Call, later: seq<Call>, now: real, answer: Answer)
    requires Requests(Run(calls), brought.user, brought.now) && brought.answer.Ticket? && brought.answer.text != ""
    requires AllBefore(later, brought.user, brought.now + TICKET_TTL_SECONDS)
    requires now < brought.now + TICKET_TTL_SECONDS
    ensures
      var s := Run(calls + [brought] + later);
      !Requests(s, brought.user, now) && ReplyOf(s, brought.user, now, answer) == Returned(brought.answer.text)
  {
    TicketStays(calls, brought, later);
  }

  /** Without a live ticket, a request is made if and only if the delay after the last failure in a row has passed. */
  lemma RequestsIff(calls: seq<Call>, user: string, now: real, answer: Answer)
    requires user in Run(calls).tickets ==> now >= Run(calls).tickets[user].until
    ensures
      var row := RowOf(calls, user);
      && (Requests(Run(calls), user, now) <==> row.NoFailures? || now >= row.last + Delay(row.count))
      && (!Requests(Run(calls), user, now) ==> ReplyOf(Run(calls), user, now, answer) == Returned(""))
  {
    StoredRetryFollowsRow(calls, user);
  }
}
