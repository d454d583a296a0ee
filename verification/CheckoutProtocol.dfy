/** Checkouts, status changes and admin edits as interleaved transactions over locks and committed tables. */
module CheckoutProtocol {
  import opened Wrappers
  import opened OrderNumbers
  import opened Orders
  import opened OrderRules

  // ----- Plant ids in ascending order -----

  ghost predicate IsAscending(s: seq<PlantId>) {
    forall i, j :: 0 <= i < j < |s| ==> s[i] < s[j]
  }

  function Elements(s: seq<PlantId>): set<PlantId> {
    set p | p in s
  }

  lemma {:induction false} Least(s: set<PlantId>) returns (m: PlantId)
    requires s != {}
    ensures m in s && forall p :: p in s ==> m <= p
  {
    m :| m in s;
    if s != {m} {
      var rest := s - {m};
      var n := Least(rest);
      assert forall p :: p in s ==> p == m || p in rest;
      m := if m < n then m else n;
    }
  }

  lemma LeastExists(s: set<PlantId>)
    requires s != {}
    ensures exists m :: m in s && forall p :: p in s ==> m <= p
  {
    var m := Least(s);
  }

  lemma LeastFirst(m: PlantId, r: seq<PlantId>, s: set<PlantId>)
    requires m in s && forall p :: p in s ==> m <= p
    requires IsAscending(r) && Elements(r) == s - {m}
    ensures IsAscending([m] + r) && Elements([m] + r) == s
  {
    assert forall i :: 0 <= i < |r| ==> r[i] in Elements(r);
    assert Elements([m] + r) == {m} + Elements(r);
    assert forall p :: p in Elements(r) ==> m < p;
  }

  /** `ORDER BY id`. */
  ghost function Sorted(s: set<PlantId>): (r: seq<PlantId>)
    ensures IsAscending(r) && Elements(r) == s
  {
    hide IsAscending, Elements;
    if s == {} then
      NoElements();
      []
    else
      LeastExists(s);
      var m :| m in s && forall p :: p in s ==> m <= p;
      var r := Sorted(s - {m});
      LeastFirst(m, r, s);
      [m] + r
  }

  lemma NoElements()
    ensures IsAscending([]) && Elements([]) == {}
  {
  }

  // ----- Transactions -----

  datatype Job = Checkout(request: Request) | ChangeStatus(o: nat, target: OrderStatus)

  /** How far a call has come; `rows` are the plant rows it has locked and read. */
  datatype Phase =
    | Idle
    | Locking(todo: seq<PlantId>, rows: map<PlantId, Plant>)
    | Approved(rows: map<PlantId, Plant>, day: Day)
    | Numbered(rows: map<PlantId, Plant>, day: Day, number: string)
    | Finished(error: Option<Error>)

  datatype Txn = Txn(job: Job, phase: Phase)

  datatype Sys = Sys(db: Db, plantLock: map<PlantId, nat>, numberLock: Option<nat>, txns: seq<Txn>)

  datatype Event =
    | Begin(t: nat)
    | LockPlant(t: nat)
    | Decide(t: nat, day: Day)
    | TakeNumber(t: nat)
    | Commit(t: nat)
    | Abort(t: nat)
    | AdminEdit(p: PlantId, edit: Edit)
    | AdminAdd(p: PlantId, plant: Plant)

  function Rows(phase: Phase): map<PlantId, Plant> {
    match phase
    case Idle => map[]
    case Locking(_, rows) => rows
    case Approved(rows, _) => rows
    case Numbered(rows, _, _) => rows
    case Finished(_) => map[]
  }

  /** Moves transaction `t` to `phase`. */
  function Move(s: Sys, t: nat, phase: Phase): Sys
    requires t < |s.txns|
  {
    s.(txns := s.txns[t := s.txns[t].(phase := phase)])
  }

  /** Ends transaction `t` and releases every lock it holds. */
  function End(s: Sys, t: nat, error: Option<Error>): Sys
    requires t < |s.txns|
  {
    Move(s.(plantLock := map p | p in s.plantLock && s.plantLock[p] != t :: s.plantLock[p],
            numberLock := if s.numberLock == Some(t) then None else s.numberLock),
         t, Finished(error))
  }

  /** Writes `rows[p].stock + delta` over every locked row: the value read under the lock decides. */
  function WriteStocks(plants: map<PlantId, Plant>, rows: map<PlantId, Plant>, delta: PlantId -> int):
    map<PlantId, Plant>
  {
    map p | p in plants :: if p in rows then plants[p].(stock := rows[p].stock + delta(p)) else plants[p]
  }

  function CommitCheckout(db: Db, rows: map<PlantId, Plant>, request: Request, number: string): Db
    requires Ids(request.lines) <= rows.Keys
  {
    Db(WriteStocks(db.plants, rows, (p: PlantId) => -Requested(request.lines, p)),
       db.orders + [NewOrder(rows, request, number)])
  }

  function CommitStatus(db: Db, rows: map<PlantId, Plant>, o: nat, target: OrderStatus): Db
    requires o < |db.orders|
  {
    var order := db.orders[o];
    Db(WriteStocks(db.plants, rows, (p: PlantId) => Ordered(order.items, p)),
       db.orders[o := order.(status := target)])
  }

  predicate ReadyToCommit(txn: Txn) {
    match txn.job
    case Checkout(_) => txn.phase.Numbered?
    case ChangeStatus(_, _) => txn.phase.Locking? && txn.phase.todo == []
  }

  predicate Enabled(s: Sys, e: Event) {
    match e
    case Begin(t) => t < |s.txns| && s.txns[t].phase.Idle?
    case LockPlant(t) =>
      t < |s.txns| && s.txns[t].phase.Locking? && s.txns[t].phase.todo != [] &&
      s.txns[t].phase.todo[0] in s.db.plants && s.txns[t].phase.todo[0] !in s.plantLock
    case Decide(t, _) =>
      t < |s.txns| && s.txns[t].job.Checkout? && s.txns[t].phase.Locking? && s.txns[t].phase.todo == []
    case TakeNumber(t) => t < |s.txns| && s.txns[t].phase.Approved? && s.numberLock == None
    case Commit(t) =>
      t < |s.txns| && ReadyToCommit(s.txns[t]) &&
      (match s.txns[t].job
       case Checkout(request) => Ids(request.lines) <= s.txns[t].phase.rows.Keys
       case ChangeStatus(o, _) => o < |s.db.orders|)
    case Abort(t) => t < |s.txns| && !s.txns[t].phase.Finished?
    case AdminEdit(p, _) => p in s.db.plants && p !in s.plantLock
    case AdminAdd(p, plant) => p !in s.db.plants && plant.stock >= 0
  }

  /** The first step of a status change: `get_order`, the two guards, and the start of the row locks. */
  ghost function BeginStatus(s: Sys, t: nat, o: nat, target: OrderStatus): Sys
    requires t < |s.txns|
  {
    if o >= |s.db.orders| then End(s, t, Some(OrderNotFound))
    else if target == s.db.orders[o].status then End(s, t, None)
    else if !TransitionAllowed(s.db.orders[o].status, target) then End(s, t, Some(InvalidStatusTransition))
    else
      var ids := if target == Cancelled then ItemIds(s.db.orders[o].items) * s.db.plants.Keys else {};
      Move(s, t, Locking(Sorted(ids), map[]))
  }

  ghost function Next(s: Sys, e: Event): Sys
    requires Enabled(s, e)
  {
    match e
    case Begin(t) =>
      (match s.txns[t].job
       case Checkout(request) => Move(s, t, Locking(Sorted(Ids(request.lines) * s.db.plants.Keys), map[]))
       case ChangeStatus(o, target) => BeginStatus(s, t, o, target))
    case LockPlant(t) =>
      var todo, rows := s.txns[t].phase.todo, s.txns[t].phase.rows;
      Move(s.(plantLock := s.plantLock[todo[0] := t]),
           t, Locking(todo[1..], rows[todo[0] := s.db.plants[todo[0]]]))
    case Decide(t, day) =>
      var rows := s.txns[t].phase.rows;
      var error := CheckError(rows, s.txns[t].job.request.lines);
      if error.Some? then End(s, t, error) else Move(s, t, Approved(rows, day))
    case TakeNumber(t) =>
      var phase := s.txns[t].phase;
      Move(s.(numberLock := Some(t)), t, Numbered(phase.rows, phase.day, NextNumber(s.db.orders, phase.day)))
    case Commit(t) =>
      var phase := s.txns[t].phase;
      (match s.txns[t].job
       case Checkout(request) =>
         if !QuantitiesPositive(request.lines) then End(s, t, Some(ConstraintViolation))
         else End(s.(db := CommitCheckout(s.db, phase.rows, request, phase.number)), t, None)
       case ChangeStatus(o, target) => End(s.(db := CommitStatus(s.db, phase.rows, o, target)), t, None))
    case Abort(t) => End(s, t, Some(TransactionAborted))
    case AdminEdit(p, edit) => s.(db := Do(s.db, EditPlant(p, edit)))
    case AdminAdd(p, plant) => s.(db := Do(s.db, AddPlant(p, plant)))
  }

  // ----- The invariant -----

  /** What transaction `t` knows in its phase, apart from the rows it holds. */
  ghost predicate PhaseOk(db: Db, txn: Txn) {
    match txn.phase
    case Idle => true
    case Finished(_) => true
    case Locking(todo, rows) =>
      && IsAscending(todo)
      && (forall p, q :: p in rows && q in todo ==> p < q)
      && Elements(todo) <= db.plants.Keys
      && (match txn.job
          case Checkout(request) => Elements(todo) + rows.Keys <= Ids(request.lines)
          case ChangeStatus(o, target) =>
            o < |db.orders| &&
            Elements(todo) + rows.Keys == if target == Cancelled then ItemIds(db.orders[o].items) else {})
    case Approved(rows, day) =>
      txn.job.Checkout? && CheckError(rows, txn.job.request.lines) == None && rows.Keys == Ids(txn.job.request.lines)
    case Numbered(rows, day, number) =>
      && txn.job.Checkout? && CheckError(rows, txn.job.request.lines) == None && rows.Keys == Ids(txn.job.request.lines)
      && number == NextNumber(db.orders, day)
  }

  /** Every row a transaction holds is locked by it and still the committed row. */
  ghost predicate RowsOk(s: Sys, t: nat)
    requires t < |s.txns|
  {
    forall p :: p in Rows(s.txns[t].phase) ==>
                  p in s.db.plants && s.db.plants[p] == Rows(s.txns[t].phase)[p] &&
                  p in s.plantLock && s.plantLock[p] == t
  }

  /** Every lock has a holder that knows it. */
  ghost predicate LocksOk(s: Sys) {
    && (forall p :: p in s.plantLock ==> s.plantLock[p] < |s.txns| && p in Rows(s.txns[s.plantLock[p]].phase))
    && (s.numberLock.Some? ==> s.numberLock.value < |s.txns| && s.txns[s.numberLock.value].phase.Numbered?)
    && (forall t :: 0 <= t < |s.txns| && s.txns[t].phase.Numbered? ==> s.numberLock == Some(t))
  }

  ghost predicate SysOk(s: Sys) {
    && DbOk(s.db)
    && (forall t :: 0 <= t < |s.txns| ==> PhaseOk(s.db, s.txns[t]))
    && (forall t :: 0 <= t < |s.txns| ==> RowsOk(s, t))
    && LocksOk(s)
  }

  /** A system where no call has started. */
  ghost predicate Initial(s: Sys) {
    && DbOk(s.db) && s.plantLock == map[] && s.numberLock == None
    && forall t :: 0 <= t < |s.txns| ==> s.txns[t].phase.Idle?
  }

  lemma InitialIsOk(s: Sys)
    requires Initial(s)
    ensures SysOk(s)
  {
  }

  // ----- Commits are atomic operations -----

  /** The operation on the committed tables that an event amounts to, if any. */
  function OpsOf(s: Sys, e: Event): seq<Op>
    requires Enabled(s, e)
  {
    match e
    case Commit(t) =>
      (match s.txns[t].job
       case Checkout(request) =>
         if QuantitiesPositive(request.lines) then [Place(request, s.txns[t].phase.day)] else []
       case ChangeStatus(o, target) => [WriteOrderStatus(o, target)])
    case AdminEdit(p, edit) => [EditPlant(p, edit)]
    case AdminAdd(p, plant) => [AddPlant(p, plant)]
    case _ => []
  }

  lemma NewOrderFrame(a: map<PlantId, Plant>, b: map<PlantId, Plant>, request: Request, number: string)
    requires Ids(request.lines) <= a.Keys && Ids(request.lines) <= b.Keys
    requires forall p :: p in Ids(request.lines) ==> a[p] == b[p]
    ensures NewOrder(a, request, number) == NewOrder(b, request, number)
  {
    hide Priced, SnapshotName, PaymentReferenceFor;
    var lines := request.lines;
    PricedFrame(a, b, lines);
    assert forall i :: 0 <= i < |lines| ==> lines[i].plantId in Ids(lines);
    assert ItemsFor(a, lines) == ItemsFor(b, lines);
  }

  /** The checks give the same answer on the locked rows and on the whole table. */
  lemma {:induction false} CheckFrame(a: map<PlantId, Plant>, b: map<PlantId, Plant>, lines: seq<Line>)
    requires Ids(lines) <= a.Keys && Ids(lines) <= b.Keys
    requires forall p :: p in Ids(lines) ==> a[p] == b[p]
    ensures CheckError(a, lines) == CheckError(b, lines)
  {
    hide Priced, FirstSeen;
    PricedFrame(a, b, lines);
    assert forall i :: 0 <= i < |lines| ==> lines[i].plantId in Ids(lines);
    StockErrorFrame(a, b, lines, FirstSeen(lines));
  }

  lemma {:induction false} StockErrorFrame(
    a: map<PlantId, Plant>, b: map<PlantId, Plant>, lines: seq<Line>, order: seq<PlantId>)
    requires forall p :: p in order ==> p in a && p in b && a[p] == b[p]
    ensures StockError(a, lines, order) == StockError(b, lines, order)
  {
    if order != [] {
      StockErrorFrame(a, b, lines, order[1..]);
    }
  }

  /** A committing checkout has exactly the effect of an atomic `create_order` on the tables of that moment. */
  lemma {:induction false} CheckoutCommitIsAtomic(s: Sys, t: nat)
    requires SysOk(s) && Enabled(s, Commit(t)) && s.txns[t].job.Checkout?
    requires QuantitiesPositive(s.txns[t].job.request.lines)
    ensures PlaceOrder(s.db, s.txns[t].job.request, s.txns[t].phase.day) == Success(Next(s, Commit(t)).db)
  {
    hide CheckError, NewOrder, NextNumber, Requested, QuantitiesPositive, DbOk;
    var request, phase := s.txns[t].job.request, s.txns[t].phase;
    assert PhaseOk(s.db, s.txns[t]) && RowsOk(s, t);
    assert phase.rows == Rows(phase);
    CheckFrame(phase.rows, s.db.plants, request.lines);
    NewOrderFrame(phase.rows, s.db.plants, request, phase.number);
    assert WriteStocks(s.db.plants, phase.rows, (p: PlantId) => -Requested(request.lines, p)) ==
           Deducted(s.db.plants, request.lines);
  }

  /** A committing status change has exactly the effect of one atomic status write. */
  lemma {:induction false} StatusCommitIsAtomic(s: Sys, t: nat)
    requires SysOk(s) && Enabled(s, Commit(t)) && s.txns[t].job.ChangeStatus?
    ensures Next(s, Commit(t)).db == WriteStatus(s.db, s.txns[t].job.o, s.txns[t].job.target)
  {
    hide Ordered, DbOk, CheckError;
    var job, rows := s.txns[t].job, s.txns[t].phase.rows;
    assert PhaseOk(s.db, s.txns[t]) && RowsOk(s, t);
    assert rows == Rows(s.txns[t].phase);
    assert Elements(s.txns[t].phase.todo) == {};
    RestockIsWrite(s.db.plants, rows, s.db.orders[job.o].items, job.target);
  }

  lemma RestockIsWrite(plants: map<PlantId, Plant>, rows: map<PlantId, Plant>, items: seq<Item>, target: OrderStatus)
    requires forall p :: p in rows ==> p in plants && rows[p] == plants[p]
    requires rows.Keys == if target == Cancelled then ItemIds(items) else {}
    ensures WriteStocks(plants, rows, (p: PlantId) => Ordered(items, p)) ==
            if target == Cancelled then Restocked(plants, items) else plants
  {
    hide Ordered;
  }

  lemma RunOne(db: Db, op: Op)
    ensures CanRun(db, [op]) <==> CanDo(db, op)
    ensures CanDo(db, op) ==> RunOps(db, [op]) == Do(db, op)
  {
    hide CanDo, Do;
    assert [op][1..] == [];
  }

  /** Every event changes the committed tables as its operations do, and not at all when it has none. */
  lemma {:induction false} StepRefines(s: Sys, e: Event)
    requires SysOk(s) && Enabled(s, e)
    ensures CanRun(s.db, OpsOf(s, e)) && RunOps(s.db, OpsOf(s, e)) == Next(s, e).db
    ensures DbOk(Next(s, e).db)
  {
    hide SysOk, CheckError, NextNumber, NewOrder, PlaceOrder, DbOk, WriteStatus, CommitStatus, CommitCheckout;
    assert DbOk(s.db) by {
      TablesOk(s);
    }
    if OpsOf(s, e) != [] {
      var op := OpsOf(s, e)[0];
      RunOne(s.db, op);
      if e.Commit? {
        if s.txns[e.t].job.Checkout? {
          CheckoutCommitIsAtomic(s, e.t);
        } else {
          StatusCommitIsAtomic(s, e.t);
        }
      }
      DoKeepsOk(s.db, op);
    }
  }

  lemma TablesOk(s: Sys)
    requires SysOk(s)
    ensures DbOk(s.db)
  {
  }
}
