/** What every interleaving of the checkout protocol keeps, and why every one of them ends. */
module CheckoutRuns {
  import opened Wrappers
  import opened OrderNumbers
  import opened Orders
  import opened OrderRules
  import opened CheckoutProtocol

  // ----- The invariant is kept -----

  /** The tables changed only in ways no waiting transaction can notice in its phase. */
  ghost predicate Extends(before: Db, after: Db) {
    && before.plants.Keys <= after.plants.Keys
    && |before.orders| <= |after.orders|
    && forall o :: 0 <= o < |before.orders| ==> after.orders[o].items == before.orders[o].items
  }

  lemma PhaseFrame(before: Db, after: Db, txn: Txn)
    requires PhaseOk(before, txn) && Extends(before, after)
    requires txn.phase.Numbered? ==> NumbersOf(after.orders) == NumbersOf(before.orders)
    ensures PhaseOk(after, txn)
  {
    hide CheckError, NextSequence, Number;
  }

  /** Ending `t`, after it wrote at most rows it holds, and new numbers only under the number lock. */
  lemma {:induction false} EndKeeps(s: Sys, db: Db, t: nat, error: Option<Error>)
    requires SysOk(s) && t < |s.txns|
    requires DbOk(db) && Extends(s.db, db)
    requires forall p :: p in s.db.plants && p !in Rows(s.txns[t].phase) ==> db.plants[p] == s.db.plants[p]
    requires NumbersOf(db.orders) == NumbersOf(s.db.orders) || s.numberLock == Some(t)
    ensures SysOk(End(s.(db := db), t, error))
  {
    hide PhaseOk, DbOk;
    var s1 := End(s.(db := db), t, error);
    forall u | 0 <= u < |s1.txns|
      ensures PhaseOk(s1.db, s1.txns[u])
    {
      if u == t {
        FinishedIsOk(s1.db, s1.txns[u]);
      } else {
        PhaseFrame(s.db, db, s.txns[u]);
      }
    }
    forall u | 0 <= u < |s1.txns|
      ensures RowsOk(s1, u)
    {
      assert RowsOk(s, u) && RowsOk(s, t);
    }
  }

  lemma FinishedIsOk(db: Db, txn: Txn)
    requires txn.phase.Finished? || txn.phase.Idle?
    ensures PhaseOk(db, txn)
  {
  }

  /** An admin write to a row nobody holds. */
  lemma {:induction false} WriteKeeps(s: Sys, db: Db)
    requires SysOk(s) && DbOk(db) && Extends(s.db, db) && db.orders == s.db.orders
    requires forall p :: p in s.plantLock && p in s.db.plants ==> db.plants[p] == s.db.plants[p]
    ensures SysOk(s.(db := db))
  {
    hide PhaseOk, DbOk;
    var s1 := s.(db := db);
    forall u | 0 <= u < |s1.txns|
      ensures PhaseOk(s1.db, s1.txns[u]) && RowsOk(s1, u)
    {
      PhaseFrame(s.db, db, s.txns[u]);
      assert RowsOk(s, u);
    }
  }

  /** Moving `t` to a phase with the same rows and no number. */
  lemma {:induction false} MoveKeeps(s: Sys, t: nat, phase: Phase)
    requires SysOk(s) && t < |s.txns| && !s.txns[t].phase.Numbered? && !phase.Numbered?
    requires Rows(phase) == Rows(s.txns[t].phase)
    requires PhaseOk(s.db, s.txns[t].(phase := phase))
    ensures SysOk(Move(s, t, phase))
  {
    hide PhaseOk, DbOk;
    var s1 := Move(s, t, phase);
    forall u | 0 <= u < |s1.txns|
      ensures RowsOk(s1, u)
    {
      assert RowsOk(s, u);
    }
  }

  lemma {:induction false} BeginKeeps(s: Sys, t: nat)
    requires SysOk(s) && Enabled(s, Begin(t))
    ensures SysOk(Next(s, Begin(t)))
  {
    hide DbOk;
    match s.txns[t].job
    case Checkout(request) =>
      MoveKeeps(s, t, Locking(Sorted(Ids(request.lines) * s.db.plants.Keys), map[]));
    case ChangeStatus(o, target) =>
      if o < |s.db.orders| && target != s.db.orders[o].status && TransitionAllowed(s.db.orders[o].status, target) {
        var ids := if target == Cancelled then ItemIds(s.db.orders[o].items) * s.db.plants.Keys else {};
        StoredIdsExist(s.db, o);
        assert ids == if target == Cancelled then ItemIds(s.db.orders[o].items) else {};
        MoveKeeps(s, t, Locking(Sorted(ids), map[]));
      } else {
        assert s.(db := s.db) == s;
        EndKeeps(s, s.db, t, if o >= |s.db.orders| then Some(OrderNotFound)
                             else if target == s.db.orders[o].status then None else Some(InvalidStatusTransition));
      }
  }

  /** Stored lines only name plants that exist. */
  lemma StoredIdsExist(db: Db, o: nat)
    requires DbOk(db) && o < |db.orders|
    ensures ItemIds(db.orders[o].items) <= db.plants.Keys
  {
    assert OrderOk(db.plants, db.orders[o]);
  }

  /** The phase of the locking transaction itself. */
  lemma {:induction false} LockedPhaseOk(s: Sys, t: nat)
    requires SysOk(s) && Enabled(s, LockPlant(t))
    ensures PhaseOk(s.db, Next(s, LockPlant(t)).txns[t])
  {
    hide DbOk, CheckError, LocksOk;
    var todo, rows := s.txns[t].phase.todo, s.txns[t].phase.rows;
    assert PhaseOk(s.db, s.txns[t]);
    assert todo == [todo[0]] + todo[1..];
    assert Elements(todo) == {todo[0]} + Elements(todo[1..]);
    var rows1 := rows[todo[0] := s.db.plants[todo[0]]];
    assert Elements(todo[1..]) + rows1.Keys == Elements(todo) + rows.Keys;
  }

  lemma {:induction false} LockKeeps(s: Sys, t: nat)
    requires SysOk(s) && Enabled(s, LockPlant(t))
    ensures SysOk(Next(s, LockPlant(t)))
  {
    hide DbOk, PhaseOk;
    var s1 := Next(s, LockPlant(t));
    LockedPhaseOk(s, t);
    assert s.txns[t].phase.rows == Rows(s.txns[t].phase);
    forall u | 0 <= u < |s1.txns|
      ensures RowsOk(s1, u)
    {
      assert RowsOk(s, u);
    }
  }

  lemma {:induction false} DecideKeeps(s: Sys, t: nat, day: Day)
    requires SysOk(s) && Enabled(s, Decide(t, day))
    ensures SysOk(Next(s, Decide(t, day)))
  {
    hide DbOk, CheckError;
    var rows, lines := s.txns[t].phase.rows, s.txns[t].job.request.lines;
    assert PhaseOk(s.db, s.txns[t]);
    if CheckError(rows, lines).Some? {
      assert s.(db := s.db) == s;
      EndKeeps(s, s.db, t, CheckError(rows, lines));
    } else {
      CheckedIdsExist(rows, lines);
      MoveKeeps(s, t, Approved(rows, day));
    }
  }

  lemma {:induction false} NumberKeeps(s: Sys, t: nat)
    requires SysOk(s) && Enabled(s, TakeNumber(t))
    ensures SysOk(Next(s, TakeNumber(t)))
  {
    hide DbOk, CheckError, NextNumber;
    var s1 := Next(s, TakeNumber(t));
    assert PhaseOk(s.db, s.txns[t]);
    forall u | 0 <= u < |s1.txns|
      ensures PhaseOk(s1.db, s1.txns[u]) && RowsOk(s1, u)
    {
      assert RowsOk(s, u);
      assert u != t ==> PhaseOk(s.db, s.txns[u]);
    }
    assert LocksOk(s1) by {
      hide PhaseOk;
    }
  }

  lemma {:induction false} CommitKeeps(s: Sys, t: nat)
    requires SysOk(s) && Enabled(s, Commit(t))
    ensures SysOk(Next(s, Commit(t)))
  {
    hide DbOk, CheckError, NextNumber, NewOrder, Ordered, Requested, QuantitiesPositive;
    StepRefines(s, Commit(t));
    var job, phase := s.txns[t].job, s.txns[t].phase;
    assert phase.rows == Rows(phase);
    match job
    case Checkout(request) =>
      if QuantitiesPositive(request.lines) {
        var db := CommitCheckout(s.db, phase.rows, request, phase.number);
        EndKeeps(s, db, t, None);
      } else {
        assert s.(db := s.db) == s;
        EndKeeps(s, s.db, t, Some(ConstraintViolation));
      }
    case ChangeStatus(o, target) =>
      var db := CommitStatus(s.db, phase.rows, o, target);
      assert NumbersOf(db.orders) == NumbersOf(s.db.orders);
      EndKeeps(s, db, t, None);
  }

  /** Every event keeps the invariant. */
  lemma {:induction false} NextKeepsOk(s: Sys, e: Event)
    requires SysOk(s) && Enabled(s, e)
    ensures SysOk(Next(s, e))
  {
    hide DbOk, PhaseOk, CheckError, CommitCheckout, CommitStatus, NextNumber;
    match e
    case Begin(t) => BeginKeeps(s, t);
    case LockPlant(t) => LockKeeps(s, t);
    case Decide(t, day) => DecideKeeps(s, t, day);
    case TakeNumber(t) => NumberKeeps(s, t);
    case Commit(t) => CommitKeeps(s, t);
    case Abort(t) =>
      assert s.(db := s.db) == s;
      EndKeeps(s, s.db, t, Some(TransactionAborted));
    case AdminEdit(p, edit) =>
      DoKeepsOk(s.db, EditPlant(p, edit));
      WriteKeeps(s, Do(s.db, EditPlant(p, edit)));
    case AdminAdd(p, plant) =>
      DoKeepsOk(s.db, AddPlant(p, plant));
      WriteKeeps(s, Do(s.db, AddPlant(p, plant)));
  }

  // ----- Whole runs -----

  ghost predicate Executes(s: Sys, es: seq<Event>)
    decreases |es|
  {
    es == [] || (Enabled(s, es[0]) && Executes(Next(s, es[0]), es[1..]))
  }

  ghost function Final(s: Sys, es: seq<Event>): Sys
    requires Executes(s, es)
    decreases |es|
  {
    if es == [] then s else Final(Next(s, es[0]), es[1..])
  }

  /** The atomic operations of a run, in commit order. */
  ghost function Linear(s: Sys, es: seq<Event>): seq<Op>
    requires Executes(s, es)
    decreases |es|
  {
    if es == [] then [] else OpsOf(s, es[0]) + Linear(Next(s, es[0]), es[1..])
  }

  /** Every interleaving leaves the tables as its committed orders, status writes and admin steps do one after
      the other. */
  lemma {:induction false} Serializable(s: Sys, es: seq<Event>)
    requires SysOk(s) && Executes(s, es)
    ensures SysOk(Final(s, es))
    ensures CanRun(s.db, Linear(s, es)) && RunOps(s.db, Linear(s, es)) == Final(s, es).db
    decreases |es|
  {
    hide SysOk, Enabled, Next, OpsOf, CanDo, Do;
    if es != [] {
      StepRefines(s, es[0]);
      NextKeepsOk(s, es[0]);
      Serializable(Next(s, es[0]), es[1..]);
      RunConcat(s.db, OpsOf(s, es[0]), Linear(Next(s, es[0]), es[1..]));
    }
  }

  /** No interleaving oversells a plant, reuses a number, or leaves an order whose amounts do not add up. */
  lemma {:induction false} TablesStayOk(s: Sys, es: seq<Event>)
    requires Initial(s) && Executes(s, es)
    ensures forall p :: p in Final(s, es).db.plants ==> Final(s, es).db.plants[p].stock >= 0
    ensures DistinctNumbers(Final(s, es).db.orders)
    ensures forall i :: 0 <= i < |Final(s, es).db.orders| ==>
                          OrderOk(Final(s, es).db.plants, Final(s, es).db.orders[i])
  {
    hide Enabled, Next, PhaseOk, OrderOk;
    InitialIsOk(s);
    Serializable(s, es);
    TablesOk(Final(s, es));
  }

  /** From gapless days, every interleaving numbers the orders of a day 1..n. */
  lemma {:induction false} NumbersStayDense(s: Sys, es: seq<Event>)
    requires SysOk(s) && Executes(s, es) && DenseDays(s.db.orders)
    ensures DenseDays(Final(s, es).db.orders)
  {
    hide SysOk, Enabled, Next, OpsOf, CanDo, Do, DenseDays;
    Serializable(s, es);
    RunKeepsDense(s.db, Linear(s, es));
  }

  // ----- Refused checkouts -----

  /** A refusal is the one the atomic call gives at that moment, exactly unless plants that were
      missing when the locking query ran have all been added since. */
  lemma {:induction false} RefusalIsAtomic(s: Sys, t: nat, day: Day)
    requires SysOk(s) && Enabled(s, Decide(t, day))
    requires CheckError(s.txns[t].phase.rows, s.txns[t].job.request.lines).Some?
    ensures var request, rows := s.txns[t].job.request, s.txns[t].phase.rows;
            var error := CheckError(rows, request.lines);
            Next(s, Decide(t, day)).db == s.db && Next(s, Decide(t, day)).txns[t].phase == Finished(error) &&
            (PlaceOrder(s.db, request, day) == Failure(error.value) <==>
             Ids(request.lines) <= rows.Keys || !(Ids(request.lines) <= s.db.plants.Keys))
  {
    hide DbOk, StockError, Priced, FirstSeen, NewOrder, NextNumber;
    var rows, lines := s.txns[t].phase.rows, s.txns[t].job.request.lines;
    assert PhaseOk(s.db, s.txns[t]) && RowsOk(s, t);
    assert rows == Rows(s.txns[t].phase);
    if Ids(lines) <= rows.Keys {
      CheckFrame(rows, s.db.plants, lines);
    } else {
      RefusalReason(s.db.plants, lines);
    }
  }

  /** The check constraint refuses at commit what it would refuse in the atomic call. */
  lemma {:induction false} ConstraintRefusalIsAtomic(s: Sys, t: nat)
    requires SysOk(s) && Enabled(s, Commit(t)) && s.txns[t].job.Checkout?
    requires !QuantitiesPositive(s.txns[t].job.request.lines)
    ensures Next(s, Commit(t)).db == s.db && Next(s, Commit(t)).txns[t].phase == Finished(Some(ConstraintViolation))
    ensures PlaceOrder(s.db, s.txns[t].job.request, s.txns[t].phase.day) == Failure(ConstraintViolation)
  {
    hide DbOk, CheckError, NewOrder, NextNumber, QuantitiesPositive;
    var phase := s.txns[t].phase;
    assert PhaseOk(s.db, s.txns[t]) && RowsOk(s, t);
    assert phase.rows == Rows(phase);
    CheckFrame(phase.rows, s.db.plants, s.txns[t].job.request.lines);
  }

  /** The rows a transaction has locked or still wants to lock. */
  function LockSet(phase: Phase): set<PlantId> {
    if phase.Locking? then Elements(phase.todo) + phase.rows.Keys else {}
  }

  lemma {:induction false} LockSetStep(s: Sys, e: Event, t: nat)
    requires Enabled(s, e) && t < |s.txns| && !s.txns[t].phase.Idle?
    ensures t < |Next(s, e).txns| && !Next(s, e).txns[t].phase.Idle? && Next(s, e).txns[t].job == s.txns[t].job
    ensures Next(s, e).txns[t].phase.Locking? ==>
              s.txns[t].phase.Locking? && LockSet(Next(s, e).txns[t].phase) == LockSet(s.txns[t].phase)
  {
    hide CheckError, NextNumber, Do, CommitCheckout, CommitStatus, TransitionAllowed, Sorted;
    if e == LockPlant(t) {
      var todo, rows := s.txns[t].phase.todo, s.txns[t].phase.rows;
      assert todo == [todo[0]] + todo[1..];
      assert Elements(todo) == {todo[0]} + Elements(todo[1..]);
      assert rows[todo[0] := s.db.plants[todo[0]]].Keys == rows.Keys + {todo[0]};
    }
  }

  /** While it is locking, a transaction keeps to the ids its locking query selected. */
  lemma {:induction false} LockSetKept(s: Sys, es: seq<Event>, t: nat)
    requires Executes(s, es) && t < |s.txns| && !s.txns[t].phase.Idle?
    ensures t < |Final(s, es).txns| && Final(s, es).txns[t].job == s.txns[t].job
    ensures Final(s, es).txns[t].phase.Locking? ==>
              s.txns[t].phase.Locking? && LockSet(Final(s, es).txns[t].phase) == LockSet(s.txns[t].phase)
    decreases |es|
  {
    hide Enabled, Next, LockSet;
    if es != [] {
      LockSetStep(s, es[0], t);
      LockSetKept(Next(s, es[0]), es[1..], t);
    }
  }

  /** In every interleaving, a refusal at the decision is the atomic call's, when the locking query ran or now. */
  lemma {:induction false} RefusedAtSomeMoment(s: Sys, t: nat, es: seq<Event>, day: Day)
    requires SysOk(s) && Enabled(s, Begin(t)) && s.txns[t].job.Checkout?
    requires Executes(Next(s, Begin(t)), es)
    ensures var request, last := s.txns[t].job.request, Final(Next(s, Begin(t)), es);
            t < |last.txns| && last.txns[t].job == s.txns[t].job &&
            (Enabled(last, Decide(t, day)) ==>
               var error := CheckError(last.txns[t].phase.rows, request.lines);
               error.Some? ==>
                 PlaceOrder(s.db, request, day) == Failure(error.value) ||
                 PlaceOrder(last.db, request, day) == Failure(error.value))
  {
    hide SysOk, StockError, Priced, FirstSeen, NewOrder, NextNumber, Sorted, Executes, Final;
    var s1 := Next(s, Begin(t));
    var last := Final(s1, es);
    LockSetKept(s1, es, t);
    NextKeepsOk(s, Begin(t));
    Serializable(s1, es);
    if Enabled(last, Decide(t, day)) && CheckError(last.txns[t].phase.rows, s.txns[t].job.request.lines).Some? {
      RefusalIsAtomic(last, t, day);
      assert last.txns[t].phase.rows.Keys == Ids(s.txns[t].job.request.lines) * s.db.plants.Keys;
    }
  }

  /** One checkout of a single unit of plant 0, and no other call. */
  function Shopper(plants: map<PlantId, Plant>, phase: Phase): Sys {
    Sys(Db(plants, []), map[], None, [Txn(Checkout(Request([Line(0, 1)], Cod, 0)), phase)])
  }

  lemma ShopperFindsNothing()
    ensures var s := Shopper(map[], Idle);
            Initial(s) && Enabled(s, Begin(0)) && Next(s, Begin(0)) == Shopper(map[], Locking([], map[]))
  {
    hide IsAscending, OrderOk, Elements;
    var s := Shopper(map[], Idle);
    assert Ids([Line(0, 1)]) * s.db.plants.Keys == {};
    NothingSorted();
  }

  lemma FernArrives(phase: Phase)
    ensures var s := Shopper(map[], phase);
            Enabled(s, AdminAdd(0, Fern(1))) && Next(s, AdminAdd(0, Fern(1))) == Shopper(map[0 := Fern(1)], phase)
  {
  }

  lemma ShopperIsRefused(plants: map<PlantId, Plant>)
    ensures var s := Shopper(plants, Locking([], map[]));
            Enabled(s, Decide(0, "20260101")) &&
            Next(s, Decide(0, "20260101")) == Shopper(plants, Finished(Some(PlantNotFound)))
  {
    hide StockError, FirstSeen, Priced;
    var lines := [Line(0, 1)];
    assert lines[0].plantId in Ids(lines);
  }

  /** A plant added after the locking query ran: the checkout is refused although the atomic call would sell it. */
  lemma {:induction false} LatePlantIsRefused() returns (s: Sys, es: seq<Event>)
    ensures Initial(s) && Executes(s, es) && s == Shopper(map[], Idle)
    ensures Final(s, es) == Shopper(map[0 := Fern(1)], Finished(Some(PlantNotFound)))
    ensures PlaceOrder(Final(s, es).db, s.txns[0].job.request, "20260101").Success?
  {
    hide Enabled, Next, Initial, CheckError, NewOrder, NextNumber, Deducted;
    var waiting, stocked := Locking([], map[]), map[0 := Fern(1)];
    s := Shopper(map[], Idle);
    ShopperFindsNothing();
    FernArrives(waiting);
    ShopperIsRefused(stocked);
    es := [Begin(0), AdminAdd(0, Fern(1)), Decide(0, "20260101")];
    var last := Shopper(stocked, Finished(Some(PlantNotFound)));
    RunUnfolds(Shopper(stocked, waiting), last, es[2..]);
    RunUnfolds(Shopper(map[], waiting), last, es[1..]);
    RunUnfolds(s, last, es);
    FernIsSold([Line(0, 1)], last.db);
  }

  lemma NothingSorted()
    ensures Sorted({}) == []
  {
  }

  lemma FernIsSold(lines: seq<Line>, db: Db)
    requires lines == [Line(0, 1)] && db.plants == map[0 := Fern(1)]
    ensures CheckError(db.plants, lines) == None && QuantitiesPositive(lines)
    ensures Priced(db.plants, lines).total == SHIPPING_FEE + 100
  {
    hide StockError, FirstSeen;
    CheckMeaning(db.plants, lines);
    assert lines[..0] == [];
    assert Requested(lines, 0) == 1;
    assert Ids(lines) == {0};
    assert Subtotal(db.plants, lines) == 100;
  }

  // ----- No deadlock -----

  predicate AllFinished(s: Sys) {
    forall t :: 0 <= t < |s.txns| ==> s.txns[t].phase.Finished?
  }

  /** A step a transaction takes on its own account. */
  predicate Progress(e: Event) {
    e.Begin? || e.LockPlant? || e.Decide? || e.TakeNumber? || e.Commit?
  }

  lemma {:induction false} Greatest(s: set<PlantId>) returns (m: PlantId)
    requires s != {}
    ensures m in s && forall p :: p in s ==> p <= m
  {
    m :| m in s;
    if s != {m} {
      var rest := s - {m};
      var n := Greatest(rest);
      assert forall p :: p in s ==> p == m || p in rest;
      m := if m < n then n else m;
    }
  }

  lemma NumberHolderCommits(s: Sys)
    requires SysOk(s) && s.numberLock.Some?
    ensures Enabled(s, Commit(s.numberLock.value))
  {
    hide DbOk, CheckError;
    assert PhaseOk(s.db, s.txns[s.numberLock.value]);
  }

  /** A transaction past its locks decides or commits; one that still wants a lock knows which. */
  lemma UnfinishedPhases(s: Sys, t: nat)
    requires SysOk(s) && t < |s.txns| && s.numberLock == None
    ensures s.txns[t].phase.Approved? ==> Enabled(s, TakeNumber(t))
    ensures !s.txns[t].phase.Numbered?
    ensures s.txns[t].phase.Locking? && s.txns[t].phase.todo == [] ==>
              Enabled(s, if s.txns[t].job.Checkout? then Decide(t, "20260101") else Commit(t))
    ensures s.txns[t].phase.Locking? && s.txns[t].phase.todo != [] ==>
              var p := s.txns[t].phase.todo[0];
              p in s.db.plants && (p !in s.plantLock ==> Enabled(s, LockPlant(t))) &&
              forall q :: q in s.txns[t].phase.rows ==> q < p
  {
    hide DbOk, CheckError;
    assert PhaseOk(s.db, s.txns[t]);
    if s.txns[t].phase.Locking? && s.txns[t].phase.todo != [] {
      assert s.txns[t].phase.todo[0] in Elements(s.txns[t].phase.todo);
    }
  }

  predicate WaitsForPlant(txn: Txn) {
    txn.phase.Locking? && txn.phase.todo != []
  }

  /** Among transactions that all wait for a plant, the holder of the greatest locked plant does not. */
  lemma {:induction false} SomeLockIsFree(s: Sys, u: nat) returns (t: nat)
    requires SysOk(s) && s.numberLock == None && u < |s.txns| && WaitsForPlant(s.txns[u])
    requires forall v :: 0 <= v < |s.txns| ==> s.txns[v].phase.Finished? || WaitsForPlant(s.txns[v])
    ensures Enabled(s, LockPlant(t))
  {
    hide DbOk, PhaseOk, Enabled;
    if s.plantLock.Keys == {} {
      t := u;
    } else {
      var p := Greatest(s.plantLock.Keys);
      t := s.plantLock[p];
      assert p in Rows(s.txns[t].phase);
    }
    UnfinishedPhases(s, t);
  }

  /** As long as a call is unfinished, some call can take its next step. */
  lemma {:induction false} NoDeadlock(s: Sys, u: nat) returns (e: Event)
    requires SysOk(s) && u < |s.txns| && !s.txns[u].phase.Finished?
    ensures Enabled(s, e) && Progress(e)
  {
    hide SysOk, Enabled;
    if s.numberLock.Some? {
      NumberHolderCommits(s);
      e := Commit(s.numberLock.value);
    } else if t :| 0 <= t < |s.txns| && s.txns[t].phase.Idle? {
      e := Begin(t);
      IdleBegins(s, t);
    } else if t :| 0 <= t < |s.txns| && !s.txns[t].phase.Finished? && !WaitsForPlant(s.txns[t]) {
      UnfinishedPhases(s, t);
      e := if s.txns[t].phase.Approved? then TakeNumber(t)
      else if s.txns[t].job.Checkout? then Decide(t, "20260101") else Commit(t);
    } else {
      var t := SomeLockIsFree(s, u);
      e := LockPlant(t);
    }
  }

  lemma IdleBegins(s: Sys, t: nat)
    requires t < |s.txns| && s.txns[t].phase.Idle?
    ensures Enabled(s, Begin(t))
  {
  }

  // ----- Every run ends -----

  function IdleCount(txns: seq<Txn>): nat {
    if txns == [] then 0
    else IdleCount(txns[..|txns| - 1]) + if txns[|txns| - 1].phase.Idle? then 1 else 0
  }

  function StepsLeft(phase: Phase): nat {
    match phase
    case Idle => 0
    case Locking(todo, _) => |todo| + 3
    case Approved(_, _) => 2
    case Numbered(_, _, _) => 1
    case Finished(_) => 0
  }

  function Work(txns: seq<Txn>): nat {
    if txns == [] then 0
    else Work(txns[..|txns| - 1]) + StepsLeft(txns[|txns| - 1].phase)
  }

  lemma {:induction false} MeasureUpdate(txns: seq<Txn>, t: nat, txn: Txn)
    requires t < |txns|
    ensures IdleCount(txns[t := txn]) + (if txns[t].phase.Idle? then 1 else 0) ==
            IdleCount(txns) + (if txn.phase.Idle? then 1 else 0)
    ensures Work(txns[t := txn]) + StepsLeft(txns[t].phase) == Work(txns) + StepsLeft(txn.phase)
  {
    var n := |txns| - 1;
    if t == n {
      assert txns[t := txn][..n] == txns[..n];
    } else {
      assert txns[t := txn][..n] == txns[..n][t := txn];
      MeasureUpdate(txns[..n], t, txn);
    }
  }

  predicate Smaller(after: seq<Txn>, before: seq<Txn>) {
    IdleCount(after) < IdleCount(before) || (IdleCount(after) == IdleCount(before) && Work(after) < Work(before))
  }

  /** Every step or abort of a transaction shrinks the measure; admin writes leave it alone. */
  lemma {:induction false} StepShrinks(s: Sys, e: Event)
    requires Enabled(s, e)
    ensures if e.AdminEdit? || e.AdminAdd? then Next(s, e).txns == s.txns else Smaller(Next(s, e).txns, s.txns)
  {
    hide CheckError, Do, IdleCount, Work, CommitCheckout, CommitStatus, NextNumber;
    if !(e.AdminEdit? || e.AdminAdd?) {
      MeasureUpdate(s.txns, e.t, Next(s, e).txns[e.t]);
      assert Next(s, e).txns == s.txns[e.t := Next(s, e).txns[e.t]];
    }
  }

  /** A run that always does what `schedule` picks, counting its steps from `n`. */
  ghost predicate Follows(s: Sys, es: seq<Event>, schedule: (nat, Sys) -> Event, n: nat)
    requires Executes(s, es)
    decreases |es|
  {
    es == [] || (es[0] == schedule(n, s) && Follows(Next(s, es[0]), es[1..], schedule, n + 1))
  }

  /** Whatever step a scheduler picks each time, it finishes every transaction. */
  lemma {:induction false} EveryScheduleFinishes(s: Sys, schedule: (nat, Sys) -> Event, n: nat) returns (es: seq<Event>)
    requires SysOk(s)
    requires forall i, x :: SysOk(x) && !AllFinished(x) ==>
                              Enabled(x, schedule(i, x)) && (Progress(schedule(i, x)) || schedule(i, x).Abort?)
    ensures Executes(s, es) && Follows(s, es, schedule, n) && AllFinished(Final(s, es))
    decreases IdleCount(s.txns), Work(s.txns)
  {
    hide SysOk, Enabled, Next, IdleCount, Work;
    if AllFinished(s) {
      es := [];
    } else {
      var e := schedule(n, s);
      StepShrinks(s, e);
      NextKeepsOk(s, e);
      var rest := EveryScheduleFinishes(Next(s, e), schedule, n + 1);
      es := [e] + rest;
      assert es[1..] == rest;
    }
  }

  predicate AdminStep(e: Event) {
    e.AdminEdit? || e.AdminAdd?
  }

  /** A run that never stops, as the states and steps at each point in time. */
  ghost predicate InfiniteRun(run: nat -> Sys, steps: nat -> Event) {
    SysOk(run(0)) && forall i: nat :: Enabled(run(i), steps(i)) && run(i + 1) == Next(run(i), steps(i))
  }

  lemma {:induction false} InfiniteRunOk(run: nat -> Sys, steps: nat -> Event, i: nat)
    requires InfiniteRun(run, steps)
    ensures SysOk(run(i))
  {
    hide SysOk, Enabled, Next;
    if i > 0 {
      InfiniteRunOk(run, steps, i - 1);
      assert Enabled(run(i - 1), steps(i - 1));
      NextKeepsOk(run(i - 1), steps(i - 1));
    }
  }

  /** While only admin steps happen, every call stays where it is, and what it can do next it can still do. */
  lemma {:induction false} AdminChangesNoCall(run: nat -> Sys, steps: nat -> Event, i: nat, j: nat)
    requires InfiniteRun(run, steps) && i <= j
    requires forall k :: i <= k < j ==> AdminStep(steps(k))
    ensures run(j).txns == run(i).txns
    ensures forall e :: Progress(e) && Enabled(run(i), e) ==> Enabled(run(j), e)
  {
    hide SysOk, Enabled, Next;
    if i < j {
      AdminChangesNoCall(run, steps, i, j - 1);
      assert Enabled(run(j - 1), steps(j - 1));
      StepShrinks(run(j - 1), steps(j - 1));
      AdminKeepsEnabled(run(j - 1), steps(j - 1));
    }
  }

  lemma AdminKeepsEnabled(s: Sys, a: Event)
    requires Enabled(s, a) && AdminStep(a)
    ensures forall e :: Progress(e) && Enabled(s, e) ==> Enabled(Next(s, a), e)
  {
  }

  /** In every infinite run, only admin steps occur from some point on. */
  lemma {:induction false} OnlyAdminStepsForever(run: nat -> Sys, steps: nat -> Event, i: nat) returns (n: nat)
    requires InfiniteRun(run, steps)
    ensures n >= i && forall j: nat :: j >= n ==> AdminStep(steps(j))
    decreases IdleCount(run(i).txns), Work(run(i).txns)
  {
    hide SysOk, Enabled, Next, IdleCount, Work;
    if forall j: nat :: j >= i ==> AdminStep(steps(j)) {
      n := i;
    } else {
      var j := FirstCallStep(steps, i);
      AdminChangesNoCall(run, steps, i, j);
      assert Enabled(run(j), steps(j));
      StepShrinks(run(j), steps(j));
      n := OnlyAdminStepsForever(run, steps, j + 1);
    }
  }

  lemma {:induction false} FirstCallStep(steps: nat -> Event, i: nat) returns (j: nat)
    requires exists k: nat :: k >= i && !AdminStep(steps(k))
    ensures j >= i && !AdminStep(steps(j)) && forall k :: i <= k < j ==> AdminStep(steps(k))
  {
    var bound: nat :| bound >= i && !AdminStep(steps(bound));
    j := i;
    while AdminStep(steps(j))
      invariant i <= j <= bound && forall k :: i <= k < j ==> AdminStep(steps(k))
      decreases bound - j
    {
      j := j + 1;
    }
  }

  ghost predicate AlwaysEnabled(run: nat -> Sys, n: nat, e: Event) {
    Progress(e) && forall i: nat :: i >= n ==> Enabled(run(i), e)
  }

  /** Call `t` takes a step, or is aborted, at `n` or later. */
  ghost predicate MovesLater(steps: nat -> Event, n: nat, t: nat) {
    exists j: nat :: j >= n && !AdminStep(steps(j)) && steps(j).t == t
  }

  /** A call that could take its next step at every moment from `n` on takes a step some time. */
  ghost predicate Fair(run: nat -> Sys, steps: nat -> Event) {
    forall n: nat, e :: AlwaysEnabled(run, n, e) ==> MovesLater(steps, n, e.t)
  }

  /** In every fair infinite run, whatever admin steps come in between, every call ends. */
  lemma {:induction false} FairRunsFinish(run: nat -> Sys, steps: nat -> Event) returns (n: nat)
    requires InfiniteRun(run, steps) && Fair(run, steps)
    ensures forall j: nat :: j >= n ==> AllFinished(run(j))
  {
    hide SysOk, Enabled, Next, InfiniteRun, Fair;
    n := OnlyAdminStepsForever(run, steps, 0);
    forall j: nat | j >= n
      ensures run(j).txns == run(n).txns
      ensures forall e :: Progress(e) && Enabled(run(n), e) ==> Enabled(run(j), e)
    {
      AdminChangesNoCall(run, steps, n, j);
    }
    if u :| 0 <= u < |run(n).txns| && !run(n).txns[u].phase.Finished? {
      InfiniteRunOk(run, steps, n);
      var e := NoDeadlock(run(n), u);
      StuckIsUnfair(run, steps, n, e);
    }
  }

  lemma StuckIsUnfair(run: nat -> Sys, steps: nat -> Event, n: nat, e: Event)
    requires AlwaysEnabled(run, n, e)
    requires forall j: nat :: j >= n ==> AdminStep(steps(j))
    ensures !Fair(run, steps)
  {
    hide Enabled;
    assert !MovesLater(steps, n, e.t);
  }

  // ----- Status changes that do not overlap -----

  predicate Changing(txn: Txn) {
    txn.job.ChangeStatus? && txn.phase.Locking?
  }

  /** What each status change has read is still true, and no two are under way on one order. */
  ghost predicate StatusFresh(s: Sys) {
    && (forall t :: 0 <= t < |s.txns| && Changing(s.txns[t]) ==>
                      Timely(s.db, WriteOrderStatus(s.txns[t].job.o, s.txns[t].job.target)))
    && (forall t, u :: 0 <= t < u < |s.txns| && Changing(s.txns[t]) && Changing(s.txns[u]) ==>
                         s.txns[t].job.o != s.txns[u].job.o)
  }

  /** A status change only begins while no other one is under way on its order. */
  predicate Apart(s: Sys, e: Event) {
    e.Begin? && e.t < |s.txns| && s.txns[e.t].job.ChangeStatus? ==>
      forall u :: 0 <= u < |s.txns| && Changing(s.txns[u]) ==> s.txns[u].job.o != s.txns[e.t].job.o
  }

  ghost predicate AllApart(s: Sys, es: seq<Event>)
    requires Executes(s, es)
    decreases |es|
  {
    es == [] || (Apart(s, es[0]) && AllApart(Next(s, es[0]), es[1..]))
  }

  /** The stored orders other than the one being written keep their status. */
  lemma {:induction false} StatusesKept(s: Sys, e: Event, o: nat)
    requires Enabled(s, e) && o < |s.db.orders|
    requires e.Commit? && e.t < |s.txns| && s.txns[e.t].job.ChangeStatus? ==> s.txns[e.t].job.o != o
    ensures o < |Next(s, e).db.orders| && Next(s, e).db.orders[o] == s.db.orders[o]
  {
    hide CheckError, NewOrder, NextNumber, WriteStocks;
  }

  /** A status change is under way after `e` only if it was before, or if `e` just began it. */
  lemma {:induction false} ChangingBefore(s: Sys, e: Event, t: nat)
    requires Enabled(s, e) && t < |Next(s, e).txns| && Changing(Next(s, e).txns[t])
    ensures t < |s.txns| && Next(s, e).txns[t].job == s.txns[t].job
    ensures Changing(s.txns[t]) ||
            (e == Begin(t) && Timely(s.db, WriteOrderStatus(s.txns[t].job.o, s.txns[t].job.target)))
    ensures e != Commit(t)
  {
    hide TransitionAllowed, CheckError, NextNumber, Do, CommitCheckout, CommitStatus, Sorted;
  }

  /** Non-overlapping status changes stay fresh. */
  lemma {:induction false} FreshKept(s: Sys, e: Event)
    requires StatusFresh(s) && Enabled(s, e) && Apart(s, e)
    ensures StatusFresh(Next(s, e))
  {
    hide TransitionAllowed, Next, Enabled;
    var s1 := Next(s, e);
    forall t | 0 <= t < |s1.txns| && Changing(s1.txns[t])
      ensures Timely(s1.db, WriteOrderStatus(s1.txns[t].job.o, s1.txns[t].job.target))
    {
      ChangingBefore(s, e, t);
      if e.Commit? {
        CommitsWhileChanging(s, e.t);
      }
      StatusesKept(s, e, s.txns[t].job.o);
    }
    forall t, u | 0 <= t < u < |s1.txns| && Changing(s1.txns[t]) && Changing(s1.txns[u])
      ensures s1.txns[t].job.o != s1.txns[u].job.o
    {
      ChangingBefore(s, e, t);
      ChangingBefore(s, e, u);
    }
  }

  lemma CommitsWhileChanging(s: Sys, t: nat)
    requires Enabled(s, Commit(t))
    ensures t < |s.txns| && (s.txns[t].job.ChangeStatus? ==> Changing(s.txns[t]))
  {
  }

  /** Without overlapping status changes, every write of the run is one the atomic calls would make. */
  lemma {:induction false} RunIsTimely(s: Sys, es: seq<Event>)
    requires SysOk(s) && StatusFresh(s) && Executes(s, es) && AllApart(s, es)
    ensures CanRun(s.db, Linear(s, es)) && AllTimely(s.db, Linear(s, es))
    ensures StatusFresh(Final(s, es))
    decreases |es|
  {
    hide SysOk, Enabled, Next, CanDo, Do, StatusFresh, Timely, Apart, OpsOf;
    if es != [] {
      StepIsTimely(s, es[0]);
      StepRefines(s, es[0]);
      NextKeepsOk(s, es[0]);
      FreshKept(s, es[0]);
      RunIsTimely(Next(s, es[0]), es[1..]);
      Serializable(Next(s, es[0]), es[1..]);
      RunConcat(s.db, OpsOf(s, es[0]), Linear(Next(s, es[0]), es[1..]));
    }
  }

  lemma {:induction false} StepIsTimely(s: Sys, e: Event)
    requires SysOk(s) && StatusFresh(s) && Enabled(s, e)
    ensures CanRun(s.db, OpsOf(s, e)) && AllTimely(s.db, OpsOf(s, e))
  {
    hide SysOk, CanDo, Do, TransitionAllowed;
    StepRefines(s, e);
    if OpsOf(s, e) != [] {
      assert OpsOf(s, e)[1..] == [];
    }
  }

  /** Before any call has begun, nothing overlaps. */
  lemma InitialIsFresh(s: Sys)
    requires Initial(s)
    ensures SysOk(s) && StatusFresh(s)
  {
    hide DbOk;
    InitialIsOk(s);
  }

  /** A committing status change is the `update_order_status` of that moment exactly when the change is still
      allowed there, or changes nothing. */
  lemma {:induction false} StatusCommitIsCall(s: Sys, t: nat)
    requires SysOk(s) && Enabled(s, Commit(t)) && s.txns[t].job.ChangeStatus?
    ensures var o, target := s.txns[t].job.o, s.txns[t].job.target;
            var order := s.db.orders[o];
            UpdateStatus(s.db, o, target) == Success(Next(s, Commit(t)).db) <==>
            if order.status == target then target == Cancelled ==> order.items == []
            else TransitionAllowed(order.status, target)
  {
    hide PhaseOk, TransitionAllowed, WriteStatus, UpdateStatus, Next, DbOk;
    var op := WriteOrderStatus(s.txns[t].job.o, s.txns[t].job.target);
    StatusCommitIsAtomic(s, t);
    CallDoes(s.db, op);
  }

  /** Without overlapping status changes, every interleaving leaves the tables as its committed `create_order`,
      `update_order_status` and admin calls do one after the other, and all of them succeed there. */
  lemma {:induction false} RunIsCalls(s: Sys, es: seq<Event>)
    requires SysOk(s) && StatusFresh(s) && Executes(s, es) && AllApart(s, es)
    ensures CallAll(s.db, Linear(s, es)) == Success(Final(s, es).db)
  {
    hide SysOk, Enabled, Next, OpsOf, CanDo, Do, StatusFresh, AllApart, Call, DbOk;
    TablesOk(s);
    Serializable(s, es);
    RunIsTimely(s, es);
    TimelyRunIsCalls(s.db, Linear(s, es));
  }

  /** In every interleaving at all, the books are off by exactly what status writes on cancelled orders count twice. */
  lemma {:induction false} EveryRunAccounts(s: Sys, es: seq<Event>, p: PlantId)
    requires SysOk(s) && Executes(s, es)
    ensures CanRun(s.db, Linear(s, es))
    ensures Accounted(Final(s, es).db, p) ==
            Accounted(s.db, p) + RecordedAll(s.db, Linear(s, es), p) + MiscountedAll(s.db, Linear(s, es), p)
    ensures MiscountedAll(s.db, Linear(s, es), p) >= 0
  {
    hide SysOk, Enabled, Next, OpsOf, CanDo, Do, DbOk, Accounted, Recorded, Miscounted;
    TablesOk(s);
    Serializable(s, es);
    RunAccounts(s.db, Linear(s, es), p);
  }

  /** In every interleaving without overlapping status changes, units are only gained or lost by admin records. */
  lemma {:induction false} StockConserved(s: Sys, es: seq<Event>, p: PlantId)
    requires SysOk(s) && StatusFresh(s) && Executes(s, es) && AllApart(s, es)
    ensures CanRun(s.db, Linear(s, es))
    ensures Accounted(Final(s, es).db, p) == Accounted(s.db, p) + RecordedAll(s.db, Linear(s, es), p)
  {
    hide Enabled, Next, PhaseOk, DbOk, StatusFresh, Accounted;
    Serializable(s, es);
    RunIsTimely(s, es);
    TablesOk(s);
    RunAccounts(s.db, Linear(s, es), p);
  }

  /** In every such interleaving an order is restocked once if it gets cancelled, never otherwise. */
  lemma {:induction false} RestockedOnce(s: Sys, es: seq<Event>, o: nat)
    requires SysOk(s) && StatusFresh(s) && Executes(s, es) && AllApart(s, es)
    ensures var before, after := StartStatus(s.db, o), StartStatus(Final(s, es).db, o);
            Restocks(Linear(s, es), o) == (if after == Cancelled && before != Cancelled then 1 else 0) &&
            StatusWrites(Linear(s, es), o) <= ChangesLeft(before) <= 4
  {
    hide Enabled, Next, PhaseOk, DbOk, StatusFresh;
    Serializable(s, es);
    RunIsTimely(s, es);
    OrderHistory(s.db, Linear(s, es), o);
  }

  // ----- Status changes that do overlap -----

  /** A committing status change keeps the books for a plant exactly when the order is not cancelled already. */
  lemma {:induction false} StatusCommitConserves(s: Sys, t: nat, p: PlantId)
    requires SysOk(s) && Enabled(s, Commit(t)) && s.txns[t].job.ChangeStatus?
    requires p in ItemIds(s.db.orders[s.txns[t].job.o].items)
    ensures Accounted(Next(s, Commit(t)).db, p) == Accounted(s.db, p) <==>
            s.db.orders[s.txns[t].job.o].status != Cancelled
  {
    hide PhaseOk, Accounted, Ordered;
    StatusCommitIsAtomic(s, t);
    var job := s.txns[t].job;
    var order := s.db.orders[job.o];
    assert OrderOk(s.db.plants, order);
    OrderedNotNegative(order.items, p);
    StatusWriteConserves(s.db, job.o, job.target, p);
  }

  lemma SortedSingleton(p: PlantId)
    ensures Sorted({p}) == [p]
  {
    var r := Sorted({p});
    assert p in Elements(r);
    forall i | 0 <= i < |r|
      ensures r[i] == p
    {
      assert r[i] in Elements(r);
    }
  }

  function Fern(stock: int): Plant {
    Plant("Fern", None, stock, true, Some(100))
  }

  function FernOrder(status: OrderStatus): Order {
    Order(Number("20260101", 1), status, [Item(0, "Fern", 1, 100)], 100, SHIPPING_FEE, SHIPPING_FEE + 100,
          Cod, None, Unpaid, None, 0)
  }

  /** One order of a single fern, and calls that all want to cancel it. */
  function Cancellations(stock: int, status: OrderStatus, lock: map<PlantId, nat>, phases: seq<Phase>): Sys {
    Sys(Db(map[0 := Fern(stock)], [FernOrder(status)]), lock, None,
        seq(|phases|, i requires 0 <= i < |phases| => Txn(ChangeStatus(0, Cancelled), phases[i])))
  }

  lemma CancellationsInitial(n: nat)
    ensures Initial(Cancellations(0, Pending, map[], seq(n, i => Idle)))
  {
    hide Number, PaymentReferenceFor;
    var o := FernOrder(Pending);
    assert IssuedNumber(o.number);
    assert o.items[..0] == [];
    assert ItemsTotal(o.items) == 100;
    assert OrderOk(map[0 := Fern(0)], o);
  }

  lemma CancelBegins(stock: int, lock: map<PlantId, nat>, phases: seq<Phase>, t: nat)
    requires t < |phases| && phases[t] == Idle
    ensures var s := Cancellations(stock, Pending, lock, phases);
            Enabled(s, Begin(t)) &&
            Next(s, Begin(t)) == Cancellations(stock, Pending, lock, phases[t := Locking([0], map[])])
  {
    hide Number, Sorted;
    var s := Cancellations(stock, Pending, lock, phases);
    assert ItemIds(s.db.orders[0].items) * s.db.plants.Keys == {0};
    SortedSingleton(0);
    assert Next(s, Begin(t)).txns == Cancellations(stock, Pending, lock, phases[t := Locking([0], map[])]).txns;
  }

  lemma CancelLocks(stock: int, status: OrderStatus, phases: seq<Phase>, t: nat)
    requires t < |phases| && phases[t] == Locking([0], map[])
    ensures var s := Cancellations(stock, status, map[], phases);
            Enabled(s, LockPlant(t)) &&
            Next(s, LockPlant(t)) ==
            Cancellations(stock, status, map[0 := t], phases[t := Locking([], map[0 := Fern(stock)])])
  {
    hide Number;
    var s := Cancellations(stock, status, map[], phases);
    assert [0 as PlantId][1..] == [];
    assert Next(s, LockPlant(t)).txns ==
           Cancellations(stock, status, map[0 := t], phases[t := Locking([], map[0 := Fern(stock)])]).txns;
  }

  lemma CancelCommits(stock: int, status: OrderStatus, phases: seq<Phase>, t: nat)
    requires t < |phases| && phases[t] == Locking([], map[0 := Fern(stock)])
    ensures var s := Cancellations(stock, status, map[0 := t], phases);
            Enabled(s, Commit(t)) &&
            Next(s, Commit(t)) == Cancellations(stock + 1, Cancelled, map[], phases[t := Finished(None)])
  {
    hide Number;
    var s := Cancellations(stock, status, map[0 := t], phases);
    var items := s.db.orders[0].items;
    assert items[..0] == [] && Ordered(items, 0) == 1;
    var s1 := Next(s, Commit(t));
    assert s1.db.plants == map[0 := Fern(stock + 1)];
    assert s1.txns == Cancellations(stock + 1, Cancelled, map[], phases[t := Finished(None)]).txns;
  }

  /** Two overlapping cancellations of one order put its fern back twice: the row locks do not prevent it. */
  lemma {:induction false} OverlapRestocksTwice() returns (s: Sys, es: seq<Event>)
    ensures Initial(s) && Executes(s, es)
    ensures s == Cancellations(0, Pending, map[], [Idle, Idle])
    ensures Final(s, es) == Cancellations(2, Cancelled, map[], [Finished(None), Finished(None)])
  {
    hide Enabled, Next, Initial, Cancellations;
    var idle, held := [Idle, Idle], Locking([0], map[]);
    s := Cancellations(0, Pending, map[], idle);
    CancellationsInitial(2);
    assert seq(2, i => Idle) == idle;
    CancelBegins(0, map[], idle, 0);
    var s1 := Next(s, Begin(0));
    CancelBegins(0, map[], [held, Idle], 1);
    assert idle[0 := held] == [held, Idle];
    var s2 := Next(s1, Begin(1));
    CancelLocks(0, Pending, [held, held], 0);
    assert [held, Idle][1 := held] == [held, held];
    var s3 := Next(s2, LockPlant(0));
    var ready := Locking([], map[0 := Fern(0)]);
    CancelCommits(0, Pending, [ready, held], 0);
    assert [held, held][0 := ready] == [ready, held];
    var s4 := Next(s3, Commit(0));
    var done := Finished(None);
    CancelLocks(1, Cancelled, [done, held], 1);
    assert [ready, held][0 := done] == [done, held];
    var s5 := Next(s4, LockPlant(1));
    var again := Locking([], map[0 := Fern(1)]);
    CancelCommits(1, Cancelled, [done, again], 1);
    assert [done, held][1 := again] == [done, again];
    var s6 := Next(s5, Commit(1));
    assert [done, again][1 := done] == [done, done];
    es := [Begin(0), Begin(1), LockPlant(0), Commit(0), LockPlant(1), Commit(1)];
    RunUnfolds(s5, s6, es[5..]);
    RunUnfolds(s4, s6, es[4..]);
    RunUnfolds(s3, s6, es[3..]);
    RunUnfolds(s2, s6, es[2..]);
    RunUnfolds(s1, s6, es[1..]);
    RunUnfolds(s, s6, es);
  }

  /** One step of `Executes` and `Final`. */
  lemma RunUnfolds(s: Sys, last: Sys, es: seq<Event>)
    requires es != [] && Enabled(s, es[0])
    requires if |es| == 1 then Next(s, es[0]) == last
             else Executes(Next(s, es[0]), es[1..]) && Final(Next(s, es[0]), es[1..]) == last
    ensures Executes(s, es) && Final(s, es) == last
  {
    hide Enabled, Next;
  }
}
