/**
 * Concurrent transfers and fills as a state machine over their database steps (backend/ledger/services.py,
 * backend/trading/services.py): row locks taken in ascending id order, a key index whose in-progress entries
 * make a second inserter wait, reads under READ COMMITTED, and everything a transaction wrote appearing at
 * COMMIT or not at all.
 */
module Protocol {
  import opened Wrappers
  import opened Ascending
  import opened Journal
  import opened Trading
  import opened Serial

  type Tid = nat

  /** Where a call stands. Lines ride along from the decision to the commit; nothing else is remembered. */
  datatype Pc =
    | Started
    | Locking(next: nat)
    | Rechecking
    | ReadingShares
    | ReadingBalance(held: int)
    | Inserting(lines: seq<Line>)
    | Auditing(lines: seq<Line>)
    | Announcing(lines: seq<Line>)
    | Committing(lines: seq<Line>, news: seq<BalanceNews>)
    | Recovering
    | Done(outcome: Outcome)

  datatype Proc = Proc(request: Request, pc: Pc)

  datatype BalanceNews = BalanceNews(account: AccountId, balance: int)

  /** What is pushed to clients once an entry commits. */
  datatype Batch = Batch(entry: nat, news: seq<BalanceNews>)

  datatype AuditRow = TransferPosted(entry: nat) | OrderFilled(entry: nat, order: OrderId)

  /**
   * The database plus the running calls. `history` is a record kept for the proofs: it orders calls by the
   * moment their outcome became inevitable.
   */
  datatype State = State(
    accounts: Accounts, journal: seq<Entry>, audit: seq<AuditRow>, published: seq<Batch>,
    locks: map<AccountId, Tid>, claims: map<Key, Tid>, procs: map<Tid, Proc>, history: seq<Item>)

  const INITIAL := State(map[], [], [], [], map[], map[], map[], [])

  /** `lock_accounts`: ascending ids, duplicates collapsed. */
  ghost function Plan(r: Request): seq<AccountId> { Sorted(Touched(r)) }

  predicate Keyed(r: Request) { r.Transfer? && r.token.Some? }

  predicate InTransaction(pc: Pc)
  {
    pc.Rechecking? || pc.ReadingShares? || pc.ReadingBalance? || pc.Inserting? || pc.Auditing? || pc.Announcing?
      || pc.Committing?
  }

  predicate HasInserted(pc: Pc) { pc.Auditing? || pc.Announcing? || pc.Committing? }

  ghost predicate Holds(p: Proc, a: AccountId)
  {
    if p.pc.Locking? then p.pc.next <= |Plan(p.request)| && a in Plan(p.request)[..p.pc.next]
    else InTransaction(p.pc) && a in Touched(p.request)
  }

  predicate Claims(p: Proc, k: Key) { HasInserted(p.pc) && KeyOf(p.request) == Some(k) }

  // ---------------------------------------------------------------------------------------------
  // Steps
  // ---------------------------------------------------------------------------------------------

  function Goto(s: State, t: Tid, pc: Pc): State
    requires t in s.procs
  {
    s.(procs := s.procs[t := Proc(s.procs[t].request, pc)])
  }

  function Log(s: State, t: Tid, o: Outcome): State
    requires t in s.procs
  {
    s.(history := s.history + [Call(t, s.procs[t].request, o)])
  }

  /** COMMIT or ROLLBACK: every row lock and index claim of the transaction is let go. */
  function Released(s: State, t: Tid): State
  {
    s.(locks := map a | a in s.locks && s.locks[a] != t :: s.locks[a],
       claims := map k | k in s.claims && s.claims[k] != t :: s.claims[k])
  }

  function Settle(s: State, t: Tid, o: Outcome): State
    requires t in s.procs
  {
    Goto(Released(s, t), t, Done(o))
  }

  function Finish(s: State, t: Tid, o: Outcome): State
    requires t in s.procs
  {
    Settle(Log(s, t, o), t, o)
  }

  function AfterLocks(r: Request): Pc
  {
    if Keyed(r) then Rechecking else if NeedsShares(r) then ReadingShares else ReadingBalance(0)
  }

  /** A keyed transfer that cannot be covered is refused from its re-check on: the balance is already pinned. */
  function NoteRefusal(s: State, t: Tid): State
    requires t in s.procs
  {
    var r := s.procs[t].request;
    if r.Transfer? && Balance(Rows(s.journal), r.source) < r.amount then Log(s, t, Refused(InsufficientFunds)) else s
  }

  function NewsFor(j: seq<Entry>, r: Request): seq<BalanceNews>
  {
    match r
    case Transfer(s, d, _, _, _) => [BalanceNews(s, Balance(Rows(j), s)), BalanceNews(d, Balance(Rows(j), d))]
    case Fill(t, _, _) => [BalanceNews(t.cash, Balance(Rows(j), t.cash))]
  }

  function AuditFor(r: Request, entry: nat): AuditRow
  {
    match r
    case Transfer(_, _, _, _, _) => TransferPosted(entry)
    case Fill(t, _, _) => OrderFilled(entry, t.order)
  }

  /** COMMIT of a posting: entry, audit row and deferred announcements become visible together. */
  function Commit(s: State, t: Tid, lines: seq<Line>, news: seq<BalanceNews>): State
    requires t in s.procs
  {
    var r, e := s.procs[t].request, |s.journal|;
    Finish(s, t, Created(e)).(
      journal := s.journal + [EntryFor(r, lines)],
      audit := s.audit + [AuditFor(r, e)],
      published := s.published + [Batch(e, news)])
  }

  function Claimed(s: State, t: Tid): State
    requires t in s.procs
  {
    var k := KeyOf(s.procs[t].request);
    if k.None? then s else s.(claims := s.claims[k.value := t])
  }

  predicate Live(s: State, t: Tid) { t in s.procs && !s.procs[t].pc.Done? }

  /** A call waits only for a row lock somebody holds, or for an uncommitted insert of its own key. */
  ghost predicate CanAdvance(s: State, t: Tid)
  {
    && Live(s, t)
    && var p := s.procs[t];
      && (p.pc.Locking? && p.pc.next < |Plan(p.request)| ==> Plan(p.request)[p.pc.next] !in s.locks)
      && (p.pc.Inserting? && KeyOf(p.request).Some? ==> KeyOf(p.request).value !in s.claims)
      && (p.pc.ReadingBalance? ==> Sound(p.request))
  }

  ghost function Advance(s: State, t: Tid): State
    requires CanAdvance(s, t)
  {
    var r := s.procs[t].request;
    match s.procs[t].pc
    case Started =>
      if !Sound(r) then Finish(s, t, Invalid)
      else if Resolve(s.journal, r).Some? then Finish(s, t, Resolve(s.journal, r).value)
      else Goto(s, t, Locking(0))
    case Locking(n) =>
      if n < |Plan(r)| then Goto(s.(locks := s.locks[Plan(r)[n] := t]), t, Locking(n + 1))
      else Goto(s, t, AfterLocks(r))
    case Rechecking =>
      if Resolve(s.journal, r).Some? then Finish(s, t, Resolve(s.journal, r).value)
      else Goto(NoteRefusal(s, t), t, ReadingBalance(0))
    case ReadingShares => Goto(s, t, ReadingBalance(Held(Rows(s.journal), Reads(r))))
    case ReadingBalance(held) =>
      (match Decide(r, held, Balance(Rows(s.journal), Reads(r)))
       case Failure(reason) => if Keyed(r) then Settle(s, t, Refused(reason)) else Finish(s, t, Refused(reason))
       case Success(lines) => Goto(s, t, Inserting(lines)))
    case Inserting(lines) =>
      if KeyOf(r).Some? && FindKey(s.journal, KeyOf(r).value).Some?
      then if r.Fill? then Finish(s, t, Duplicate) else Goto(Released(s, t), t, Recovering)
      else Goto(Claimed(s, t), t, Auditing(lines))
    case Auditing(lines) => Goto(s, t, Announcing(lines))
    case Announcing(lines) => Goto(s, t, Committing(lines, NewsFor(s.journal + [EntryFor(r, lines)], r)))
    case Committing(lines, news) => Commit(s, t, lines, news)
    case Recovering =>
      if Resolve(s.journal, r).Some? then Finish(s, t, Resolve(s.journal, r).value) else Settle(s, t, Aborted)
    case Done(_) => s
  }

  datatype Action =
    | OpenAccount(id: AccountId, account: Account)
    | Register(equity: AccountId, equityRow: Account, checking: AccountId, checkingRow: Account, deposit: int,
      at: Instant)
    | Begin(t: Tid, request: Request)
    | Step(t: Tid)
    | Crash(t: Tid)

  ghost predicate Enabled(s: State, a: Action)
  {
    match a
    case OpenAccount(id, _) => id !in s.accounts
    case Register(q, qa, c, ca, n, at) =>
      q !in s.accounts && c !in s.accounts && q != c && ItemFits(s.accounts[q := qa][c := ca], Opening(q, c, n, at))
    case Begin(t, r) => t !in s.procs && RequestFits(s.accounts, r)
    case Step(t) => CanAdvance(s, t)
    case Crash(t) => Live(s, t)
  }

  ghost function Next(s: State, a: Action): State
    requires Enabled(s, a)
  {
    match a
    case OpenAccount(id, row) => s.(accounts := s.accounts[id := row])
    case Register(q, qa, c, ca, n, at) =>
      s.(accounts := s.accounts[q := qa][c := ca],
         journal := s.journal + [OpeningEntry(q, c, n, at)],
         history := s.history + [Opening(q, c, n, at)])
    case Begin(t, r) => s.(procs := s.procs[t := Proc(r, Started)])
    case Step(t) => Advance(s, t)
    case Crash(t) => Settle(s, t, Aborted)
  }

  /** A schedule: any interleaving of arrivals, steps and failures. */
  ghost predicate Legal(acts: seq<Action>)
    decreases |acts|, 0
  {
    acts == [] || (Legal(acts[..|acts| - 1]) && Enabled(After(acts[..|acts| - 1]), acts[|acts| - 1]))
  }

  ghost function After(acts: seq<Action>): State
    requires Legal(acts)
    decreases |acts|, 1
  {
    if acts == [] then INITIAL else Next(After(acts[..|acts| - 1]), acts[|acts| - 1])
  }

  // ---------------------------------------------------------------------------------------------
  // The invariant
  // ---------------------------------------------------------------------------------------------

  ghost predicate LocksOk(s: State)
  {
    && (forall t, a :: t in s.procs ==> (Holds(s.procs[t], a) <==> a in s.locks && s.locks[a] == t))
    && (forall a :: a in s.locks ==> s.locks[a] in s.procs)
  }

  ghost predicate ClaimsOk(s: State)
  {
    && (forall t, k :: t in s.procs ==> (Claims(s.procs[t], k) <==> k in s.claims && s.claims[k] == t))
    && (forall k :: k in s.claims ==> s.claims[k] in s.procs && FindKey(s.journal, k).None?)
  }

  ghost predicate Fits(s: State)
  {
    forall t :: t in s.procs ==> RequestFits(s.accounts, s.procs[t].request)
  }

  /** What a call remembers is still true of the committed journal. */
  ghost predicate Knows(j: seq<Entry>, p: Proc)
  {
    var r := p.request;
    && (!p.pc.Started? && !p.pc.Done? ==> Sound(r))
    && match p.pc
      case Locking(n) => n <= |Plan(r)|
      case Rechecking => Keyed(r)
      case ReadingShares => NeedsShares(r)
      case ReadingBalance(held) => held == if NeedsShares(r) then Held(Rows(j), Reads(r)) else 0
      case Inserting(lines) => DecideOn(j, r) == Success(lines)
      case Auditing(lines) => DecideOn(j, r) == Success(lines)
      case Announcing(lines) => DecideOn(j, r) == Success(lines)
      case Committing(lines, news) => DecideOn(j, r) == Success(lines) && news == NewsFor(j + [EntryFor(r, lines)], r)
      case Recovering => Keyed(r) && FindKey(j, KeyOf(r).value).Some?
      case _ => true
  }

  ghost predicate AllKnow(s: State)
  {
    forall t :: t in s.procs ==> Knows(s.journal, s.procs[t])
  }

  /** The outcome recorded for a call, and the request it was recorded for. */
  function LogOf(h: seq<Item>, t: Tid): Option<(Request, Outcome)>
  {
    if h == [] then None
    else
      match h[|h| - 1]
      case Call(id, r, o) => if id == t then Some((r, o)) else LogOf(h[..|h| - 1], t)
      case Opening(_, _, _, _) => LogOf(h[..|h| - 1], t)
  }

  ghost predicate OncePerCall(h: seq<Item>)
  {
    h == [] || (OncePerCall(h[..|h| - 1]) && (h[|h| - 1].Call? ==> LogOf(h[..|h| - 1], h[|h| - 1].id).None?))
  }

  /** Which calls already have their place in the serial order. */
  ghost predicate Placed(j: seq<Entry>, p: Proc, log: Option<(Request, Outcome)>)
  {
    var r := p.request;
    match p.pc
    case Done(o) =>
      if o == Aborted then log == None || log == Some((r, Refused(InsufficientFunds))) else log == Some((r, o))
    case ReadingBalance(_) =>
      log == if Keyed(r) && Balance(Rows(j), r.source) < r.amount then Some((r, Refused(InsufficientFunds))) else None
    case _ => log == None
  }

  ghost predicate HistoryOk(s: State)
  {
    && Agrees(s.history) && JournalOf(s.history) == s.journal
    && HistoryFits(s.accounts, s.history)
    && OncePerCall(s.history)
    && (forall t :: t !in s.procs ==> LogOf(s.history, t).None?)
    && (forall t :: t in s.procs ==> Placed(s.journal, s.procs[t], LogOf(s.history, t)))
  }

  /** The audit rows and announcements a serial history calls for. */
  function AuditOf(h: seq<Item>): seq<AuditRow>
  {
    if h == [] then []
    else
      var item := h[|h| - 1];
      AuditOf(h[..|h| - 1]) +
      if item.Call? && item.outcome.Created? then [AuditFor(item.request, item.outcome.entry)] else []
  }

  function PublishedOf(h: seq<Item>): seq<Batch>
  {
    if h == [] then []
    else
      var item := h[|h| - 1];
      PublishedOf(h[..|h| - 1]) +
      if item.Call? && item.outcome.Created? then [Batch(item.outcome.entry, NewsFor(JournalOf(h), item.request))]
        else []
  }

  ghost predicate ReportsOk(s: State)
  {
    s.audit == AuditOf(s.history) && s.published == PublishedOf(s.history)
  }

  ghost predicate Inv(s: State)
  {
    LocksOk(s) && ClaimsOk(s) && Fits(s) && AllKnow(s) && HistoryOk(s) && ReportsOk(s)
  }
}
