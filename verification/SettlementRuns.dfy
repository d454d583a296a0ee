/** Webhook deliveries as interleaved transactions over the unique transaction id and the order row locks. */
module SettlementRuns {
  import opened Wrappers
  import opened OrderNumbers
  import opened Orders
  import opened OrderRules
  import opened Payments
  import CheckoutRuns

  // ----- Deliveries as transactions -----

  /** How far a delivery has come; `target` is the order its query found. */
  datatype Phase =
    | Idle
    | Inserted
    | Waiting(target: nat)
    | Ready(found: Option<nat>, status: MatchStatus)
    | Done(answer: Option<MatchStatus>)
    | Aborted

  datatype Delivery = Delivery(payload: Payload, phase: Phase)

  /** `idLock` holds the ids of inserted but uncommitted log rows, `orderLock` the locked order rows. */
  datatype Sys = Sys(books: Books, idLock: map<int, nat>, orderLock: map<nat, nat>, deliveries: seq<Delivery>)

  datatype Move =
    | Insert(t: nat, now: nat)
    | Find(t: nat)
    | LockOrder(t: nat)
    | Commit(t: nat, now: nat)
    | Abort(t: nat)
    | Other(op: Op)

  function To(s: Sys, t: nat, phase: Phase): Sys
    requires t < |s.deliveries|
  {
    s.(deliveries := s.deliveries[t := s.deliveries[t].(phase := phase)])
  }

  /** Ends delivery `t` and releases what it holds. */
  function End(s: Sys, t: nat, phase: Phase): Sys
    requires t < |s.deliveries|
  {
    To(s.(idLock := map id | id in s.idLock && s.idLock[id] != t :: s.idLock[id],
          orderLock := map o | o in s.orderLock && s.orderLock[o] != t :: s.orderLock[o]), t, phase)
  }

  predicate Over(phase: Phase) {
    phase.Done? || phase.Aborted?
  }

  predicate Enabled(s: Sys, m: Move) {
    match m
    case Insert(t, _) =>
      t < |s.deliveries| && s.deliveries[t].phase.Idle? && s.deliveries[t].payload.id !in s.idLock
    case Find(t) => t < |s.deliveries| && s.deliveries[t].phase.Inserted?
    case LockOrder(t) =>
      t < |s.deliveries| && s.deliveries[t].phase.Waiting? &&
      s.deliveries[t].phase.target < |s.books.db.orders| && s.deliveries[t].phase.target !in s.orderLock
    case Commit(t, _) =>
      t < |s.deliveries| && s.deliveries[t].phase.Ready? &&
      (s.deliveries[t].phase.found.Some? ==> s.deliveries[t].phase.found.value < |s.books.db.orders|)
    case Abort(t) => t < |s.deliveries| && !Over(s.deliveries[t].phase)
    case Other(op) => CanDo(s.books.db, op) && (op.WriteOrderStatus? ==> op.o !in s.orderLock)
  }

  /** The query: an ignored or unmatched payload locks nothing. */
  function QueryResult(orders: seq<Order>, payload: Payload): Phase {
    if payload.transferType != Some("in") then Ready(None, Ignored)
    else
      var target := OldestNamed(orders, Candidates(payload));
      if target.None? then Ready(None, Unmatched) else Waiting(target.value)
  }

  /** The order row as the transaction writes it: only a match touches it. */
  function WriteMatch(db: Db, found: Option<nat>, status: MatchStatus, now: nat): Db
    requires found.Some? ==> found.value < |db.orders|
  {
    if found.Some? && status == Matched
    then db.(orders := db.orders[found.value := MarkPaid(db.orders[found.value], now)]) else db
  }

  function Next(s: Sys, m: Move): Sys
    requires Enabled(s, m)
  {
    match m
    case Insert(t, _) =>
      var id := s.deliveries[t].payload.id;
      if id in s.books.rows then End(s, t, Done(None)) else To(s.(idLock := s.idLock[id := t]), t, Inserted)
    case Find(t) => To(s, t, QueryResult(s.books.db.orders, s.deliveries[t].payload))
    case LockOrder(t) =>
      var o := s.deliveries[t].phase.target;
      To(s.(orderLock := s.orderLock[o := t]),
         t, Ready(Some(o), MatchOf(s.books.db.orders[o], s.deliveries[t].payload)))
    case Commit(t, now) =>
      var p, found, status := s.deliveries[t].payload, s.deliveries[t].phase.found, s.deliveries[t].phase.status;
      End(s.(books := Books(WriteMatch(s.books.db, found, status, now),
                            s.books.rows[p.id := Row(found, p.amount, status)])),
          t, Done(Some(status)))
    case Abort(t) => End(s, t, Aborted)
    case Other(op) => s.(books := s.books.(db := Do(s.books.db, op)))
  }

  // ----- The invariant -----

  /** The delivery holds its id, so that nobody else can log it. */
  predicate HoldsId(phase: Phase) {
    phase.Inserted? || phase.Waiting? || phase.Ready?
  }

  predicate IsTarget(orders: seq<Order>, payload: Payload, o: nat) {
    payload.transferType == Some("in") && o < |orders| && Names(orders[o], Candidates(payload))
  }

  /** What a delivery has found and decided is still so. */
  ghost predicate PhaseOk(orders: seq<Order>, d: Delivery) {
    && (d.phase.Waiting? ==> IsTarget(orders, d.payload, d.phase.target))
    && (d.phase.Ready? ==>
          match d.phase.found
          case None => d.phase.status == if d.payload.transferType == Some("in") then Unmatched else Ignored
          case Some(o) => IsTarget(orders, d.payload, o) && d.phase.status == MatchOf(orders[o], d.payload))
  }

  ghost predicate LocksOk(s: Sys) {
    && (forall id :: id in s.idLock ==>
                       id !in s.books.rows && s.idLock[id] < |s.deliveries| &&
                       HoldsId(s.deliveries[s.idLock[id]].phase) && s.deliveries[s.idLock[id]].payload.id == id)
    && (forall o :: o in s.orderLock ==>
                      s.orderLock[o] < |s.deliveries| && s.deliveries[s.orderLock[o]].phase.Ready? &&
                      s.deliveries[s.orderLock[o]].phase.found == Some(o))
    && (forall t :: 0 <= t < |s.deliveries| && HoldsId(s.deliveries[t].phase) ==>
                      s.deliveries[t].payload.id in s.idLock && s.idLock[s.deliveries[t].payload.id] == t)
    && (forall t :: 0 <= t < |s.deliveries| && s.deliveries[t].phase.Ready? && s.deliveries[t].phase.found.Some? ==>
                      s.deliveries[t].phase.found.value in s.orderLock &&
                      s.orderLock[s.deliveries[t].phase.found.value] == t)
  }

  ghost predicate SysOk(s: Sys) {
    && BooksOk(s.books)
    && (forall t :: 0 <= t < |s.deliveries| ==> PhaseOk(s.books.db.orders, s.deliveries[t]))
    && LocksOk(s)
  }

  ghost predicate Initial(s: Sys) {
    && BooksOk(s.books) && s.idLock == map[] && s.orderLock == map[]
    && forall t :: 0 <= t < |s.deliveries| ==> s.deliveries[t].phase.Idle?
  }

  lemma InitialIsOk(s: Sys)
    requires Initial(s)
    ensures SysOk(s)
  {
    hide BooksOk;
  }

  // ----- Commits -----

  /** Whatever has happened since the query: a commit settles the payload on the order found then. */
  lemma {:induction false} CommitSettlesTarget(s: Sys, t: nat, now: nat)
    requires SysOk(s) && Enabled(s, Commit(t, now))
    ensures var d := s.deliveries[t];
            SettleOn(s.books, d.payload, d.phase.found, now) == (Next(s, Commit(t, now)).books, d.phase.status) &&
            d.payload.id !in s.books.rows
  {
    hide BooksOk, Names, Candidates;
    assert PhaseOk(s.books.db.orders, s.deliveries[t]);
  }

  /** It is the atomic call of that moment exactly if that order is still the one the payload resolves to. */
  lemma {:induction false} CommitIsSettle(s: Sys, t: nat, now: nat)
    requires SysOk(s) && Enabled(s, Commit(t, now))
    ensures var d := s.deliveries[t];
            Settle(s.books, d.payload, now) == (Next(s, Commit(t, now)).books, Some(d.phase.status)) <==>
            Resolve(s.books.db.orders, d.payload) == d.phase.found
  {
    hide SysOk, Resolve, MatchOf, Next;
    CommitSettlesTarget(s, t, now);
    var d := s.deliveries[t];
    var target := Resolve(s.books.db.orders, d.payload);
    assert target.Some? ==> target.value < |s.books.db.orders| by {
      ResolvesInside(s.books.db.orders, d.payload);
    }
    assert Settle(s.books, d.payload, now).0.rows[d.payload.id].orderId == target;
    assert SettleOn(s.books, d.payload, d.phase.found, now).0.rows[d.payload.id].orderId == d.phase.found;
  }

  lemma ResolvesInside(orders: seq<Order>, payload: Payload)
    ensures Resolve(orders, payload).Some? ==> Resolve(orders, payload).value < |orders|
  {
  }

  // ----- Every move keeps the invariant -----

  /** Other calls change neither what a delivery reads of an order nor where it is. */
  lemma {:induction false} OtherKeepsPhase(db: Db, op: Op, d: Delivery)
    requires CanDo(db, op) && PhaseOk(db.orders, d)
    ensures PhaseOk(Do(db, op).orders, d)
  {
    hide Do, CanDo, Candidates;
    if d.phase.Waiting? {
      DoKeepsOrder(db, op, d.phase.target);
    } else if d.phase.Ready? && d.phase.found.Some? {
      DoKeepsOrder(db, op, d.phase.found.value);
    }
  }

  lemma {:induction false} OtherKeeps(s: Sys, op: Op)
    requires SysOk(s) && Enabled(s, Other(op))
    ensures SysOk(Next(s, Other(op)))
  {
    hide PhaseOk, LedgerOk, DbOk, Do, CanDo;
    var s1 := Next(s, Other(op));
    DoKeepsOk(s.books.db, op);
    ChangeKeepsLedger(s.books, op);
    forall t | 0 <= t < |s1.deliveries|
      ensures PhaseOk(s1.books.db.orders, s1.deliveries[t])
    {
      OtherKeepsPhase(s.books.db, op, s.deliveries[t]);
    }
  }

  /** Ending a delivery that has not written anything. */
  lemma {:induction false} EndKeeps(s: Sys, t: nat, phase: Phase)
    requires SysOk(s) && t < |s.deliveries| && Over(phase)
    ensures SysOk(End(s, t, phase))
  {
    hide BooksOk, LocksOk, IsTarget, MatchOf;
    EndLocks(s, t, phase);
  }

  lemma {:induction false} EndLocks(s: Sys, t: nat, phase: Phase)
    requires LocksOk(s) && t < |s.deliveries| && Over(phase)
    ensures LocksOk(End(s, t, phase))
  {
  }

  lemma {:induction false} InsertKeeps(s: Sys, t: nat, now: nat)
    requires SysOk(s) && Enabled(s, Insert(t, now))
    ensures SysOk(Next(s, Insert(t, now)))
  {
    hide BooksOk, IsTarget, MatchOf;
    if s.deliveries[t].payload.id in s.books.rows {
      EndKeeps(s, t, Done(None));
    }
  }

  lemma {:induction false} FindKeeps(s: Sys, t: nat)
    requires SysOk(s) && Enabled(s, Find(t))
    ensures SysOk(Next(s, Find(t)))
  {
    hide BooksOk, Names, Candidates;
  }

  lemma {:induction false} LockOrderKeeps(s: Sys, t: nat)
    requires SysOk(s) && Enabled(s, LockOrder(t))
    ensures SysOk(Next(s, LockOrder(t)))
  {
    hide BooksOk, Names, Candidates, MatchOf;
    assert PhaseOk(s.books.db.orders, s.deliveries[t]);
  }

  lemma {:induction false} CommitKeeps(s: Sys, t: nat, now: nat)
    requires SysOk(s) && Enabled(s, Commit(t, now))
    ensures SysOk(Next(s, Commit(t, now)))
  {
    hide LedgerOk, DbOk, Candidates;
    var d, s1 := s.deliveries[t], Next(s, Commit(t, now));
    assert PhaseOk(s.books.db.orders, d);
    CommitSettlesTarget(s, t, now);
    SettleOnKeepsLedger(s.books, d.payload, d.phase.found, now);
    SettleOnKeepsDb(s.books, d.payload, d.phase.found, now);
    forall u | 0 <= u < |s1.deliveries|
      ensures PhaseOk(s1.books.db.orders, s1.deliveries[u])
    {
      assert PhaseOk(s.books.db.orders, s.deliveries[u]);
    }
    LocksAfterCommit(s, t, now);
  }

  lemma {:induction false} LocksAfterCommit(s: Sys, t: nat, now: nat)
    requires SysOk(s) && Enabled(s, Commit(t, now))
    ensures LocksOk(Next(s, Commit(t, now)))
  {
    hide BooksOk, PhaseOk;
  }

  /** Every step keeps one log row per id, one decision per locked order, and the ledger. */
  lemma {:induction false} NextKeepsOk(s: Sys, m: Move)
    requires SysOk(s) && Enabled(s, m)
    ensures SysOk(Next(s, m))
  {
    hide SysOk;
    match m
    case Insert(t, now) => InsertKeeps(s, t, now);
    case Find(t) => FindKeeps(s, t);
    case LockOrder(t) => LockOrderKeeps(s, t);
    case Commit(t, now) => CommitKeeps(s, t, now);
    case Abort(t) => EndKeeps(s, t, Aborted);
    case Other(op) => OtherKeeps(s, op);
  }

  // ----- Whole runs -----

  ghost predicate Executes(s: Sys, ms: seq<Move>)
    decreases |ms|
  {
    ms == [] || (Enabled(s, ms[0]) && Executes(Next(s, ms[0]), ms[1..]))
  }

  ghost function Final(s: Sys, ms: seq<Move>): Sys
    requires Executes(s, ms)
    decreases |ms|
  {
    if ms == [] then s else Final(Next(s, ms[0]), ms[1..])
  }

  /** In every interleaving with any other calls and aborts an order is paid exactly if one matched row names it. */
  lemma {:induction false} LedgerHoldsInterleaved(s: Sys, ms: seq<Move>)
    requires SysOk(s) && Executes(s, ms)
    ensures SysOk(Final(s, ms)) && BooksOk(Final(s, ms).books)
    decreases |ms|
  {
    hide Enabled, Next, PhaseOk, LocksOk, BooksOk;
    if ms != [] {
      NextKeepsOk(s, ms[0]);
      LedgerHoldsInterleaved(Next(s, ms[0]), ms[1..]);
    }
  }

  /** The atomic event that a move amounts to, if any. A repeated id is answered when it is inserted. */
  function EventsOf(s: Sys, m: Move): seq<Event>
    requires Enabled(s, m)
  {
    match m
    case Insert(t, now) =>
      if s.deliveries[t].payload.id in s.books.rows then [Deliver(s.deliveries[t].payload, now)] else []
    case Commit(t, now) => [Deliver(s.deliveries[t].payload, now)]
    case Other(op) => [Change(op)]
    case _ => []
  }

  /** The atomic events of a run, in commit order. */
  ghost function Linear(s: Sys, ms: seq<Move>): seq<Event>
    requires Executes(s, ms)
    decreases |ms|
  {
    if ms == [] then [] else EventsOf(s, ms[0]) + Linear(Next(s, ms[0]), ms[1..])
  }

  // ----- Orders placed while a delivery is under way -----

  predicate PastQuery(phase: Phase) {
    phase.Waiting? || phase.Ready?
  }

  function FoundBy(phase: Phase): Option<nat>
    requires PastQuery(phase)
  {
    if phase.Waiting? then Some(phase.target) else phase.found
  }

  /** The placed order is one that the payload mentions, and it is older than what the query found, if anything. */
  predicate Overlooks(orders: seq<Order>, payload: Payload, found: Option<nat>, placed: Order) {
    payload.transferType == Some("in") && Names(placed, Candidates(payload)) &&
    (found.Some? && found.value < |orders| ==> placed.createdAt < orders[found.value].createdAt)
  }

  /** Exactly such an order changes what the payload resolves to. */
  lemma {:induction false} ResolvesAnew(orders: seq<Order>, payload: Payload, placed: Order)
    ensures Resolve(orders + [placed], payload) ==
            if Overlooks(orders, payload, Resolve(orders, payload), placed) then Some(|orders|)
            else Resolve(orders, payload)
  {
    hide Candidates, Names;
    assert (orders + [placed])[..|orders|] == orders;
  }

  /** Each delivery past its query has found the order its payload still resolves to. */
  ghost predicate Current(s: Sys) {
    forall t :: 0 <= t < |s.deliveries| && PastQuery(s.deliveries[t].phase) ==>
                  Resolve(s.books.db.orders, s.deliveries[t].payload) == FoundBy(s.deliveries[t].phase)
  }

  function Placed(db: Db, request: Request, day: Day): Order
    requires PlaceOrder(db, request, day).Success?
  {
    CheckedIdsExist(db.plants, request.lines);
    NewOrder(db.plants, request, NextNumber(db.orders, day))
  }

  /** The move places no order that a delivery past its query overlooks. */
  ghost predicate Notices(s: Sys, m: Move)
    requires Enabled(s, m)
  {
    m.Other? && m.op.Place? ==>
      var placed := Placed(s.books.db, m.op.request, m.op.day);
      forall t :: 0 <= t < |s.deliveries| && PastQuery(s.deliveries[t].phase) ==>
                    !Overlooks(s.books.db.orders, s.deliveries[t].payload, FoundBy(s.deliveries[t].phase), placed)
  }

  ghost predicate AllNotice(s: Sys, ms: seq<Move>)
    requires Executes(s, ms)
    decreases |ms|
  {
    ms == [] || (Notices(s, ms[0]) && AllNotice(Next(s, ms[0]), ms[1..]))
  }

  /** Only a placed order changes the terms by which payloads find orders. */
  lemma TermsKept(db: Db, op: Op)
    requires CanDo(db, op)
    ensures if op.Place? then Do(db, op).orders == db.orders + [Placed(db, op.request, op.day)]
            else SameTerms(db.orders, Do(db, op).orders)
  {
    hide CheckError, NewOrder, NextNumber, Deducted, Restocked;
  }

  lemma {:induction false} StepTerms(s: Sys, m: Move)
    requires Enabled(s, m)
    ensures m.Other? && m.op.Place? ==>
              Next(s, m).books.db.orders == s.books.db.orders + [Placed(s.books.db, m.op.request, m.op.day)]
    ensures !(m.Other? && m.op.Place?) ==> SameTerms(s.books.db.orders, Next(s, m).books.db.orders)
  {
    hide Do, CanDo, Placed, Candidates;
    if m.Other? {
      TermsKept(s.books.db, m.op);
    }
  }

  /** A delivery past its query was so before with the same result, or has just made the query. */
  lemma {:induction false} PastQueryBefore(s: Sys, m: Move, t: nat)
    requires Enabled(s, m) && t < |Next(s, m).deliveries| && PastQuery(Next(s, m).deliveries[t].phase)
    ensures t < |s.deliveries| && Next(s, m).deliveries[t].payload == s.deliveries[t].payload
    ensures if m == Find(t) then
              FoundBy(Next(s, m).deliveries[t].phase) == Resolve(s.books.db.orders, s.deliveries[t].payload)
            else PastQuery(s.deliveries[t].phase) &&
                 FoundBy(Next(s, m).deliveries[t].phase) == FoundBy(s.deliveries[t].phase)
  {
    hide Do, CanDo, Candidates;
  }

  lemma {:induction false} CurrentKept(s: Sys, m: Move)
    requires Current(s) && Enabled(s, m) && Notices(s, m)
    ensures Current(Next(s, m))
  {
    hide Next, Resolve, PlaceOrder, Placed, Overlooks, SameTerms;
    var s1 := Next(s, m);
    StepTerms(s, m);
    forall t | 0 <= t < |s1.deliveries| && PastQuery(s1.deliveries[t].phase)
      ensures Resolve(s1.books.db.orders, s1.deliveries[t].payload) == FoundBy(s1.deliveries[t].phase)
    {
      PastQueryBefore(s, m, t);
      var p := s.deliveries[t].payload;
      if m.Other? && m.op.Place? {
        ResolvesAnew(s.books.db.orders, p, Placed(s.books.db, m.op.request, m.op.day));
      } else {
        PaysFrame(s.books.db.orders, s1.books.db.orders, p);
      }
    }
  }

  lemma OneHappens(b: Books, e: Event)
    ensures AllHappen(b, [e]) <==> CanHappen(b, e)
    ensures CanHappen(b, e) ==> After(b, [e]) == Happen(b, e)
  {
    hide CanHappen, Happen;
    assert [e][1..] == [];
  }

  /** Every move changes the tables as its atomic event does, and not at all when it has none. */
  lemma {:induction false} MoveRefines(s: Sys, m: Move)
    requires SysOk(s) && Current(s) && Enabled(s, m)
    ensures AllHappen(s.books, EventsOf(s, m)) && After(s.books, EventsOf(s, m)) == Next(s, m).books
  {
    hide SysOk, Settle, Do, CanDo, Resolve, MatchOf, Names, Candidates;
    if m.Insert? {
      RepeatedIsNothing(s.books, s.deliveries[m.t].payload, m.now);
    }
    if m.Commit? {
      CommitIsSettle(s, m.t, m.now);
    }
    if EventsOf(s, m) != [] {
      OneHappens(s.books, EventsOf(s, m)[0]);
    }
  }

  lemma RepeatedIsNothing(b: Books, payload: Payload, now: nat)
    ensures payload.id in b.rows ==> Settle(b, payload, now) == (b, None)
  {
  }

  lemma {:induction false} AfterConcat(b: Books, a: seq<Event>, c: seq<Event>)
    requires AllHappen(b, a) && AllHappen(After(b, a), c)
    ensures AllHappen(b, a + c) && After(b, a + c) == After(After(b, a), c)
    decreases |a|
  {
    hide CanHappen, Happen;
    if a == [] {
      assert a + c == c;
    } else {
      AfterConcat(Happen(b, a[0]), a[1..], c);
      assert (a + c)[1..] == a[1..] + c;
    }
  }

  /** Every interleaving that places no overlooked order leaves the tables as its webhook calls and other calls do
      one after the other, in commit order. */
  lemma {:induction false} SettlementSerializable(s: Sys, ms: seq<Move>)
    requires SysOk(s) && Current(s) && Executes(s, ms) && AllNotice(s, ms)
    ensures AllHappen(s.books, Linear(s, ms)) && After(s.books, Linear(s, ms)) == Final(s, ms).books
    decreases |ms|
  {
    hide SysOk, Current, Enabled, Next, Notices, CanHappen, Happen, EventsOf;
    if ms != [] {
      MoveRefines(s, ms[0]);
      NextKeepsOk(s, ms[0]);
      CurrentKept(s, ms[0]);
      SettlementSerializable(Next(s, ms[0]), ms[1..]);
      AfterConcat(s.books, EventsOf(s, ms[0]), Linear(Next(s, ms[0]), ms[1..]));
    }
  }

  /** A delivery keeps to what its query found. */
  lemma {:induction false} FoundKept(s: Sys, ms: seq<Move>, t: nat)
    requires Executes(s, ms) && t < |s.deliveries| && !s.deliveries[t].phase.Idle? && !s.deliveries[t].phase.Inserted?
    ensures t < |Final(s, ms).deliveries| && Final(s, ms).deliveries[t].payload == s.deliveries[t].payload
    ensures PastQuery(Final(s, ms).deliveries[t].phase) ==>
              PastQuery(s.deliveries[t].phase) &&
              FoundBy(Final(s, ms).deliveries[t].phase) == FoundBy(s.deliveries[t].phase)
    decreases |ms|
  {
    hide Enabled, Next;
    if ms != [] {
      NoWayBack(s, ms[0], t);
      FoundKept(Next(s, ms[0]), ms[1..], t);
    }
  }

  lemma {:induction false} NoWayBack(s: Sys, m: Move, t: nat)
    requires Enabled(s, m) && t < |s.deliveries| && !s.deliveries[t].phase.Idle? && !s.deliveries[t].phase.Inserted?
    ensures t < |Next(s, m).deliveries| && Next(s, m).deliveries[t].payload == s.deliveries[t].payload
    ensures !Next(s, m).deliveries[t].phase.Idle? && !Next(s, m).deliveries[t].phase.Inserted?
    ensures PastQuery(Next(s, m).deliveries[t].phase) ==>
              PastQuery(s.deliveries[t].phase) &&
              FoundBy(Next(s, m).deliveries[t].phase) == FoundBy(s.deliveries[t].phase)
  {
    hide Do, CanDo, Candidates;
  }

  /** In every interleaving at all, a payload is logged for the order it resolved to when its query ran, and its
      answer fits that order as it is at the commit. */
  lemma {:induction false} LoggedAsFound(s: Sys, t: nat, ms: seq<Move>, now: nat)
    requires SysOk(s) && Enabled(s, Find(t)) && Executes(Next(s, Find(t)), ms)
    ensures var p, last := s.deliveries[t].payload, Final(Next(s, Find(t)), ms);
            Enabled(last, Commit(t, now)) ==>
              var target := Resolve(s.books.db.orders, p);
              (target.Some? ==> target.value < |last.books.db.orders|) &&
              Next(last, Commit(t, now)).books == SettleOn(last.books, p, target, now).0
  {
    hide SysOk, Enabled, Resolve, SettleOn, Executes, Final;
    var s1 := Next(s, Find(t));
    NextKeepsOk(s, Find(t));
    LedgerHoldsInterleaved(s1, ms);
    FoundHere(s, t);
    FoundKept(s1, ms, t);
    var last := Final(s1, ms);
    if Enabled(last, Commit(t, now)) {
      ReadyToCommit(last, t, now);
      CommitSettlesTarget(last, t, now);
    }
  }

  lemma FoundHere(s: Sys, t: nat)
    requires Enabled(s, Find(t))
    ensures var d := Next(s, Find(t)).deliveries;
            t < |d| && PastQuery(d[t].phase) && d[t].payload == s.deliveries[t].payload &&
            FoundBy(d[t].phase) == Resolve(s.books.db.orders, s.deliveries[t].payload)
  {
    hide Candidates;
  }

  lemma ReadyToCommit(s: Sys, t: nat, now: nat)
    requires Enabled(s, Commit(t, now))
    ensures t < |s.deliveries| && s.deliveries[t].phase.Ready? && PastQuery(s.deliveries[t].phase)
    ensures s.deliveries[t].phase.found.Some? ==> s.deliveries[t].phase.found.value < |s.books.db.orders|
  {
  }

  // ----- A transfer that overtakes its order -----

  /** One step of `Executes` and `Final`. */
  lemma RunUnfolds(s: Sys, last: Sys, ms: seq<Move>)
    requires ms != [] && Enabled(s, ms[0])
    requires if |ms| == 1 then Next(s, ms[0]) == last
             else Executes(Next(s, ms[0]), ms[1..]) && Final(Next(s, ms[0]), ms[1..]) == last
    ensures Executes(s, ms) && Final(s, ms) == last
  {
    hide Enabled, Next;
  }

  /** A single delivery. */
  function Alone(b: Books, payload: Payload, phase: Phase): Sys {
    Sys(b, if HoldsId(phase) then map[payload.id := 0] else map[], map[], [Delivery(payload, phase)])
  }

  lemma AloneQueries(b: Books, payload: Payload, now: nat)
    requires payload.id !in b.rows && Resolve(b.db.orders, payload) == None && payload.transferType == Some("in")
    ensures Enabled(Alone(b, payload, Idle), Insert(0, now))
    ensures Next(Alone(b, payload, Idle), Insert(0, now)) == Alone(b, payload, Inserted)
    ensures Enabled(Alone(b, payload, Inserted), Find(0))
    ensures Next(Alone(b, payload, Inserted), Find(0)) == Alone(b, payload, Ready(None, Unmatched))
  {
    hide Candidates;
  }

  lemma AloneSeesOther(b: Books, payload: Payload, op: Op)
    requires CanDo(b.db, op) && !op.WriteOrderStatus?
    ensures var s := Alone(b, payload, Ready(None, Unmatched));
            Enabled(s, Other(op)) &&
            Next(s, Other(op)) == Alone(b.(db := Do(b.db, op)), payload, Ready(None, Unmatched))
  {
    hide CanDo, Do;
  }

  lemma AloneCommits(b: Books, payload: Payload, now: nat)
    ensures var s := Alone(b, payload, Ready(None, Unmatched));
            Enabled(s, Commit(0, now)) && Next(s, Commit(0, now)).deliveries[0].phase == Done(Some(Unmatched))
  {
  }

  /** Once the order a payload mentions is there, the atomic call pays it. */
  lemma {:induction false} PlacedIsSettled(b: Books, request: Request, day: Day, payload: Payload, now: nat)
    requires PlaceOrder(b.db, request, day).Success? && payload.id !in b.rows
    requires Resolve(b.db.orders, payload) == None && payload.transferType == Some("in")
    requires var placed := Placed(b.db, request, day);
             Names(placed, Candidates(payload)) && payload.amount == placed.total
    ensures Settle(b.(db := Do(b.db, Place(request, day))), payload, now).1 == Some(Matched)
  {
    hide Candidates, Names, Placed, Resolve, Do, CanDo, PlaceOrder;
    var placed := Placed(b.db, request, day);
    assert CanDo(b.db, Place(request, day)) by {
      PlaceCan(b.db, request, day);
    }
    TermsKept(b.db, Place(request, day));
    ResolvesAnew(b.db.orders, payload, placed);
    PlacedIsUnpaid(b.db, request, day);
  }

  lemma PlaceCan(db: Db, request: Request, day: Day)
    ensures CanDo(db, Place(request, day)) <==> PlaceOrder(db, request, day).Success?
  {
    hide PlaceOrder;
  }

  /** The order a payload mentions is placed after its query ran: the call answers that nothing matches, and the
      atomic call of that moment would have paid the order. */
  lemma {:induction false} OvertakingTransfer(b: Books, request: Request, day: Day, payload: Payload, now: nat)
    returns (before: Sys)
    requires BooksOk(b) && PlaceOrder(b.db, request, day).Success? && payload.id !in b.rows
    requires Resolve(b.db.orders, payload) == None && payload.transferType == Some("in")
    requires var placed := Placed(b.db, request, day);
             Names(placed, Candidates(payload)) && payload.amount == placed.total
    ensures var s, ms := Alone(b, payload, Idle), [Insert(0, now), Find(0), Other(Place(request, day))];
            Initial(s) && Executes(s, ms) && before == Final(s, ms) && Enabled(before, Commit(0, now)) &&
            Next(before, Commit(0, now)).deliveries[0].phase == Done(Some(Unmatched)) &&
            Settle(before.books, payload, now).1 == Some(Matched)
  {
    hide Candidates, Names, BooksOk, PlaceOrder, Placed, Enabled, Next, Settle, Resolve, Do, CanDo, Executes, Final;
    var s := Alone(b, payload, Idle);
    var op := Place(request, day);
    var ms := [Insert(0, now), Find(0), Other(op)];
    PlaceCan(b.db, request, day);
    AloneQueries(b, payload, now);
    AloneSeesOther(b, payload, op);
    var b1 := b.(db := Do(b.db, op));
    before := Alone(b1, payload, Ready(None, Unmatched));
    AloneCommits(b1, payload, now);
    RunUnfolds(Alone(b, payload, Ready(None, Unmatched)), before, ms[2..]);
    RunUnfolds(Alone(b, payload, Inserted), before, ms[1..]);
    RunUnfolds(s, before, ms);
    PlacedIsSettled(b, request, day, payload, now);
  }

  lemma PlacedIsUnpaid(db: Db, request: Request, day: Day)
    requires PlaceOrder(db, request, day).Success?
    ensures Placed(db, request, day).payment == Unpaid
  {
  }

  /** The first bank transfer of a day for one fern, logged as unmatched because it overtakes its order. */
  lemma {:induction false} OvertakingHappens() returns (s: Sys, ms: seq<Move>)
    ensures Initial(s) && Executes(s, ms) && |Final(s, ms).deliveries| == 1
    ensures var last := Final(s, ms);
            Enabled(last, Commit(0, 0)) && Next(last, Commit(0, 0)).deliveries[0].phase == Done(Some(Unmatched)) &&
            Settle(last.books, last.deliveries[0].payload, 0).1 == Some(Matched)
  {
    hide Initial, Executes, Final, Enabled, Next, Candidates, PlaceOrder, NewOrder, Number, PaymentReferenceFor, Settle;
    var day: Day := "20260101";
    var db := Db(map[0 := CheckoutRuns.Fern(1)], []);
    var b := Books(db, map[]);
    var request := Request([Line(0, 1)], BankTransfer, 0);
    FernIsPlaced(db, request, day);
    var placed := Placed(db, request, day);
    var payload := Payload(1, None, placed.reference, None, Some("in"), placed.total);
    ItsReferenceIsFound(day, placed, payload);
    EmptyBooksOk(b);
    s := Alone(b, payload, Idle);
    ms := [Insert(0, 0), Find(0), Other(Place(request, day))];
    var last := OvertakingTransfer(b, request, day, payload, 0);
    AloneThroughout(s, ms);
  }

  lemma EmptyBooksOk(b: Books)
    requires b.db.orders == [] && b.rows == map[] && forall p :: p in b.db.plants ==> b.db.plants[p].stock >= 0
    ensures BooksOk(b)
  {
  }

  lemma {:induction false} FernIsPlaced(db: Db, request: Request, day: Day)
    requires db == Db(map[0 := CheckoutRuns.Fern(1)], []) && request == Request([Line(0, 1)], BankTransfer, 0)
    ensures PlaceOrder(db, request, day).Success?
    ensures var placed := Placed(db, request, day);
            placed.payBy == BankTransfer && placed.total >= 0 &&
            placed.reference == Some(PaymentReferenceFor(Number(day, 1)))
  {
    hide CheckError, Number, PaymentReferenceFor, Priced, NextSequence;
    CheckoutRuns.FernIsSold(request.lines, db);
    NothingTaken(day);
    DenseNext({}, day);
    NewOrderOk(db.plants, request, db.orders, day);
  }

  lemma NothingTaken(day: Day)
    ensures TakenOn([], day) == {} && Dense({}, day)
  {
  }

  lemma ItsReferenceIsFound(day: Day, placed: Order, payload: Payload)
    requires placed.payBy == BankTransfer && placed.reference == Some(PaymentReferenceFor(Number(day, 1)))
    requires payload.content == placed.reference
    ensures Names(placed, Candidates(payload))
  {
    hide Found, PaymentReferenceFor, Number, CodeReference;
    ExtractedExactlyUpTo9999(day, 1, "", "");
    assert "" + placed.reference.value + "" == placed.reference.value;
  }

  lemma {:induction false} AloneThroughout(s: Sys, ms: seq<Move>)
    requires Executes(s, ms)
    ensures |Final(s, ms).deliveries| == |s.deliveries|
    ensures forall t :: 0 <= t < |s.deliveries| ==> Final(s, ms).deliveries[t].payload == s.deliveries[t].payload
    decreases |ms|
  {
    hide Enabled, Next;
    if ms != [] {
      SameDeliveries(s, ms[0]);
      AloneThroughout(Next(s, ms[0]), ms[1..]);
    }
  }

  lemma SameDeliveries(s: Sys, m: Move)
    requires Enabled(s, m)
    ensures |Next(s, m).deliveries| == |s.deliveries|
    ensures forall t :: 0 <= t < |s.deliveries| ==> Next(s, m).deliveries[t].payload == s.deliveries[t].payload
  {
    hide Do, CanDo, Candidates, MatchOf;
  }

  // ----- Deliveries among themselves -----

  predicate NoOthers(ms: seq<Move>) {
    forall m :: m in ms ==> !m.Other?
  }

  function DeliveriesOf(es: seq<Event>): seq<(Payload, nat)> {
    if es == [] then []
    else (if es[0].Deliver? then [(es[0].payload, es[0].now)] else []) + DeliveriesOf(es[1..])
  }

  lemma {:induction false} NothingElseHappens(s: Sys, ms: seq<Move>)
    requires Executes(s, ms) && NoOthers(ms)
    ensures AllNotice(s, ms)
    ensures forall e :: e in Linear(s, ms) ==> e.Deliver?
    decreases |ms|
  {
    hide Enabled, Next;
    if ms != [] {
      assert ms[0] in ms && forall m :: m in ms[1..] ==> m in ms;
      NothingElseHappens(Next(s, ms[0]), ms[1..]);
    }
  }

  lemma {:induction false} DeliversAll(b: Books, es: seq<Event>)
    requires AllHappen(b, es) && forall e :: e in es ==> e.Deliver?
    ensures After(b, es) == DeliverAll(b, DeliveriesOf(es))
    decreases |es|
  {
    hide Settle;
    if es != [] {
      assert es[0] in es && forall e :: e in es[1..] ==> e in es;
      DeliversAll(Happen(b, es[0]), es[1..]);
    }
  }

  /** Deliveries alone, however interleaved and aborted, do what the answered ones do one after the other. */
  lemma {:induction false} InterleavedIsSerial(s: Sys, ms: seq<Move>)
    requires Initial(s) && Executes(s, ms) && NoOthers(ms)
    ensures Final(s, ms).books == DeliverAll(s.books, DeliveriesOf(Linear(s, ms)))
  {
    hide Enabled, Next, BooksOk, PhaseOk, LocksOk;
    InitialIsOk(s);
    NothingElseHappens(s, ms);
    SettlementSerializable(s, ms);
    DeliversAll(s.books, Linear(s, ms));
  }

  /** Which orders are paid depends on the answered payloads alone, not on how their deliveries were interleaved,
      repeated, aborted or retried. */
  lemma {:induction false} InterleavingIrrelevant(s1: Sys, ms1: seq<Move>, s2: Sys, ms2: seq<Move>)
    requires Initial(s1) && Initial(s2) && s1.books == s2.books
    requires Executes(s1, ms1) && Executes(s2, ms2) && NoOthers(ms1) && NoOthers(ms2)
    requires var ps := PayloadsOf(DeliveriesOf(Linear(s1, ms1)));
             ps == PayloadsOf(DeliveriesOf(Linear(s2, ms2))) && Consistent(ps)
    ensures PaidOrders(Final(s1, ms1).books) == PaidOrders(Final(s2, ms2).books)
  {
    hide Enabled, Next, Initial, PayloadsOf, PaidOrders, DeliverAll, Consistent, Executes, Final, Linear;
    InterleavedIsSerial(s1, ms1);
    InterleavedIsSerial(s2, ms2);
    DeliveryOrderIrrelevant(s1.books, DeliveriesOf(Linear(s1, ms1)), DeliveriesOf(Linear(s2, ms2)));
  }

  // ----- Progress -----

  /** A step a delivery takes on its own account. */
  predicate Progress(m: Move) {
    m.Insert? || m.Find? || m.LockOrder? || m.Commit?
  }

  predicate AllOver(s: Sys) {
    forall t :: 0 <= t < |s.deliveries| ==> Over(s.deliveries[t].phase)
  }

  /** A delivery that waits for a row or for an id waits, in the end, for one that can commit. */
  lemma {:induction false} SomeDeliveryMoves(s: Sys, u: nat) returns (m: Move)
    requires SysOk(s) && u < |s.deliveries| && !Over(s.deliveries[u].phase)
    ensures Enabled(s, m) && Progress(m)
  {
    hide BooksOk, Names, Candidates, MatchOf;
    var t := if s.deliveries[u].phase.Idle? && s.deliveries[u].payload.id in s.idLock
    then s.idLock[s.deliveries[u].payload.id] else u;
    assert PhaseOk(s.books.db.orders, s.deliveries[t]);
    match s.deliveries[t].phase
    case Idle => m := Insert(t, 0);
    case Inserted => m := Find(t);
    case Waiting(o) =>
      if o in s.orderLock {
        assert PhaseOk(s.books.db.orders, s.deliveries[s.orderLock[o]]);
        m := Commit(s.orderLock[o], 0);
      } else {
        m := LockOrder(t);
      }
    case Ready(_, _) => m := Commit(t, 0);
  }

  function StepsLeft(phase: Phase): nat {
    match phase
    case Idle => 4
    case Inserted => 3
    case Waiting(_) => 2
    case Ready(_, _) => 1
    case _ => 0
  }

  function Work(ds: seq<Delivery>): nat {
    if ds == [] then 0 else Work(ds[..|ds| - 1]) + StepsLeft(ds[|ds| - 1].phase)
  }

  lemma {:induction false} WorkUpdate(ds: seq<Delivery>, t: nat, d: Delivery)
    requires t < |ds|
    ensures Work(ds[t := d]) + StepsLeft(ds[t].phase) == Work(ds) + StepsLeft(d.phase)
    ensures Work(ds) <= 4 * |ds|
    decreases |ds|
  {
    var n := |ds| - 1;
    if n > 0 {
      WorkUpdate(ds[..n], if t < n then t else 0, if t < n then d else ds[0]);
    }
    if t == n {
      assert ds[t := d][..n] == ds[..n];
    } else {
      assert ds[t := d][..n] == ds[..n][t := d];
    }
  }

  function OwnSteps(ms: seq<Move>): nat {
    if ms == [] then 0 else (if ms[0].Other? then 0 else 1) + OwnSteps(ms[1..])
  }

  /** However long a run, its deliveries take at most four steps each. */
  lemma {:induction false} DeliveriesEnd(s: Sys, ms: seq<Move>)
    requires Executes(s, ms)
    ensures OwnSteps(ms) + Work(Final(s, ms).deliveries) <= Work(s.deliveries) <= 4 * |s.deliveries|
    decreases |ms|
  {
    hide Enabled, Next, Work;
    if |s.deliveries| > 0 {
      WorkUpdate(s.deliveries, 0, s.deliveries[0]);
    } else {
      assert Work(s.deliveries) == 0 by {
        NoWork(s.deliveries);
      }
    }
    if ms != [] {
      MoveWorks(s, ms[0]);
      DeliveriesEnd(Next(s, ms[0]), ms[1..]);
    }
  }

  lemma NoWork(ds: seq<Delivery>)
    requires ds == []
    ensures Work(ds) == 0
  {
  }

  lemma {:induction false} MoveWorks(s: Sys, m: Move)
    requires Enabled(s, m)
    ensures m.Other? ==> Next(s, m).deliveries == s.deliveries
    ensures !m.Other? ==> Work(Next(s, m).deliveries) < Work(s.deliveries)
  {
    hide Work, Do, CanDo, Candidates, MatchOf;
    if !m.Other? {
      WorkUpdate(s.deliveries, m.t, Next(s, m).deliveries[m.t]);
      assert Next(s, m).deliveries == s.deliveries[m.t := Next(s, m).deliveries[m.t]];
    }
  }
}
