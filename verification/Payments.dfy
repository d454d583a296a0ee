/** Settlement of bank-transfer orders from SePay webhook deliveries. */
module Payments {
  import opened Wrappers
  import opened Characters
  import opened OrderNumbers
  import opened Orders
  import opened OrderRules

  // ----- Extracting references -----

  datatype Payload = Payload(
    id: int, code: Option<string>, content: Option<string>, description: Option<string>,
    transferType: Option<string>, amount: nat)

  /** The pattern `GG\d{12}`, ignoring case, matches at the start of `s`. */
  predicate ReferenceAt(s: string) {
    |s| >= 14 && UpperAscii(s[0]) == 'G' && UpperAscii(s[1]) == 'G' &&
    forall i :: 2 <= i < 14 ==> IsDecimalDigit(s[i])
  }

  /** `findall`: leftmost matches that do not overlap. */
  function FindAll(s: string): seq<string>
    decreases |s|
  {
    if |s| < 14 then []
    else if ReferenceAt(s) then [s[..14]] + FindAll(s[14..])
    else FindAll(s[1..])
  }

  function Found(text: Option<string>): set<string> {
    if text.Some? && text.value != "" then set m | m in FindAll(text.value) :: Upper(m) else {}
  }

  function CodeReference(code: Option<string>): set<string> {
    if code.Some? && code.value != "" then {Upper(Strip(IsSpace, code.value))} else {}
  }

  /** Every reference the payload may be paying. */
  function Candidates(payload: Payload): set<string> {
    CodeReference(payload.code) + Found(payload.content) + Found(payload.description)
  }

  /** The candidates in order of appearance, each once. */
  method CandidateReferences(payload: Payload) returns (unique: seq<string>)
    ensures (set r | r in unique) == Candidates(payload)
    ensures forall i, j :: 0 <= i < j < |unique| ==> unique[i] != unique[j]
  {
    hide Upper, FindAll;
    var candidates: seq<string> := [];
    if payload.code.Some? && payload.code.value != "" {
      candidates := candidates + [Upper(Strip(IsSpace, payload.code.value))];
    }
    var texts := [payload.content, payload.description];
    ghost var start := set r | r in candidates;
    for i := 0 to |texts|
      invariant (set r | r in candidates) ==
                start + (if i > 0 then Found(texts[0]) else {}) + (if i > 1 then Found(texts[1]) else {})
    {
      if texts[i].Some? && texts[i].value != "" {
        var matches := FindAll(texts[i].value);
        var uppers := seq(|matches|, j requires 0 <= j < |matches| => Upper(matches[j]));
        assert (set r | r in uppers) == Found(texts[i]) by {
          assert forall j :: 0 <= j < |uppers| ==> uppers[j] == Upper(matches[j]);
        }
        ghost var before := candidates;
        candidates := candidates + uppers;
        assert (set r | r in candidates) == (set r | r in before) + (set r | r in uppers);
      }
    }
    unique := [];
    for i := 0 to |candidates|
      invariant forall r :: r in unique <==> r in candidates[..i]
      invariant forall j, k :: 0 <= j < k < |unique| ==> unique[j] != unique[k]
    {
      assert candidates[..i + 1] == candidates[..i] + [candidates[i]];
      if candidates[i] !in unique {
        unique := unique + [candidates[i]];
      }
    }
    assert candidates[..|candidates|] == candidates;
    assert (set r | r in unique) == (set r | r in candidates);
    assert texts[0] == payload.content && texts[1] == payload.description;
    assert start == CodeReference(payload.code);
  }

  // ----- Settling -----

  datatype MatchStatus = Matched | AmountMismatch | AlreadyPaid | Unmatched | Ignored

  datatype Row = Row(orderId: Option<nat>, amount: nat, status: MatchStatus)

  /** The shop's tables with the log of provider transactions, keyed by the provider's id. */
  datatype Books = Books(db: Db, rows: map<int, Row>)

  predicate Names(order: Order, references: set<string>) {
    order.payBy == BankTransfer && order.reference.Some? && order.reference.value in references
  }

  /** The oldest bank-transfer order with one of the references; the earlier row on a tie. */
  function OldestNamed(orders: seq<Order>, references: set<string>): (r: Option<nat>)
    ensures r.Some? ==> r.value < |orders| && Names(orders[r.value], references)
    ensures r.Some? ==> forall i :: 0 <= i < |orders| && Names(orders[i], references) ==>
                                      orders[r.value].createdAt <= orders[i].createdAt
    ensures r.None? ==> forall i :: 0 <= i < |orders| ==> !Names(orders[i], references)
  {
    if orders == [] then None
    else
      var n := |orders| - 1;
      var r := OldestNamed(orders[..n], references);
      if Names(orders[n], references) && (r.None? || orders[n].createdAt < orders[r.value].createdAt) then Some(n)
      else r
  }

  /** The order an incoming transfer is for. */
  function Resolve(orders: seq<Order>, payload: Payload): Option<nat> {
    if payload.transferType != Some("in") then None else OldestNamed(orders, Candidates(payload))
  }

  function MarkPaid(order: Order, now: nat): Order {
    order.(payment := Paid, paidAt := Some(now))
  }

  /** What becomes of an incoming transfer for `order`. */
  function MatchOf(order: Order, payload: Payload): MatchStatus {
    if order.payment == Paid then AlreadyPaid
    else if payload.amount != order.total then AmountMismatch
    else Matched
  }

  /** Logs the payload for the order found, if any, and pays that order on a match. */
  function SettleOn(b: Books, payload: Payload, target: Option<nat>, now: nat): (Books, MatchStatus)
    requires target.Some? ==> target.value < |b.db.orders|
  {
    var status :=
      if payload.transferType != Some("in") then Ignored
      else if target.None? then Unmatched
      else MatchOf(b.db.orders[target.value], payload);
    var orders := if status == Matched
                  then b.db.orders[target.value := MarkPaid(b.db.orders[target.value], now)] else b.db.orders;
    (Books(b.db.(orders := orders), b.rows[payload.id := Row(target, payload.amount, status)]), status)
  }

  /** `process_sepay_webhook`: the new tables and the answer, `None` for a repeated delivery. */
  function Settle(b: Books, payload: Payload, now: nat): (Books, Option<MatchStatus>) {
    if payload.id in b.rows then (b, None)
    else
      var (b1, status) := SettleOn(b, payload, Resolve(b.db.orders, payload), now);
      (b1, Some(status))
  }

  /** `i` is an oldest bank-transfer order that the payload mentions. */
  predicate OldestFor(orders: seq<Order>, payload: Payload, i: nat) {
    i < |orders| && Names(orders[i], Candidates(payload)) &&
    forall j :: 0 <= j < |orders| && Names(orders[j], Candidates(payload)) ==>
              orders[i].createdAt <= orders[j].createdAt
  }

  /** When each answer is given, what it logs, and what it changes. */
  lemma {:induction false} AnswerMeaning(b: Books, payload: Payload, now: nat)
    ensures var (b1, answer) := Settle(b, payload, now);
            var incoming := payload.transferType == Some("in");
            var mentioned := exists o :: o in b.db.orders && Names(o, Candidates(payload));
            (answer == None <==> payload.id in b.rows) &&
            (answer == None ==> b1 == b) &&
            (answer.Some? ==>
               && (answer == Some(Ignored) <==> !incoming)
               && (answer == Some(Unmatched) <==> incoming && !mentioned)
               && payload.id in b1.rows && b1.rows[payload.id].status == answer.value
               && b1.rows[payload.id].amount == payload.amount
               && b1.rows - {payload.id} == b.rows
               && (answer in {Some(Ignored), Some(Unmatched)} <==> b1.rows[payload.id].orderId == None)) &&
            (answer in {Some(Matched), Some(AlreadyPaid), Some(AmountMismatch)} ==>
               var target := b1.rows[payload.id].orderId;
               target.Some? && OldestFor(b.db.orders, payload, target.value) &&
               var o := b.db.orders[target.value];
               && (answer == Some(AlreadyPaid) <==> o.payment == Paid)
               && (answer == Some(AmountMismatch) <==> o.payment == Unpaid && o.total != payload.amount)
               && (answer == Some(Matched) <==> o.payment == Unpaid && o.total == payload.amount)
               && (answer == Some(Matched) ==>
                     b1.db == b.db.(orders := b.db.orders[target.value := MarkPaid(o, now)]))) &&
            (answer != Some(Matched) ==> b1.db == b.db)
  {
    hide Candidates, Names;
    var r := Resolve(b.db.orders, payload);
    if r.Some? {
      assert b.db.orders[r.value] in b.db.orders;
    }
    var target := OldestNamed(b.db.orders, Candidates(payload));
    assert target.Some? ==> b.db.orders[target.value] in b.db.orders;
  }

  class PaymentService {
    var db: Db
    var rows: map<int, Row>

    ghost function State(): Books
      reads this
    {
      Books(db, rows)
    }

    constructor (b: Books)
      ensures State() == b
    {
      db, rows := b.db, b.rows;
    }

    method ProcessSepayWebhook(payload: Payload, now: nat) returns (r: Option<MatchStatus>)
      modifies this
      ensures (State(), r) == Settle(old(State()), payload, now)
    {
      hide Candidates, Upper, FindAll;
      if payload.id in rows {
        return None;
      }
      var orderId: Option<nat> := None;
      var status;
      if payload.transferType != Some("in") {
        status := Ignored;
      } else {
        var references := CandidateReferences(payload);
        orderId := OldestNamed(db.orders, set s | s in references);
        if orderId.None? {
          status := Unmatched;
        } else {
          var order := db.orders[orderId.value];
          if order.payment == Paid {
            status := AlreadyPaid;
          } else if payload.amount != order.total {
            status := AmountMismatch;
          } else {
            db := db.(orders := db.orders[orderId.value := MarkPaid(order, now)]);
            status := Matched;
          }
        }
      }
      rows := rows[payload.id := Row(orderId, payload.amount, status)];
      return Some(status);
    }
  }

  // ----- The ledger invariant -----

  ghost predicate MatchedFor(b: Books, id: int, o: nat) {
    id in b.rows && b.rows[id].status == Matched && b.rows[id].orderId == Some(o)
  }

  ghost predicate LedgerOk(b: Books) {
    && (forall id :: id in b.rows && b.rows[id].status == Matched ==>
                       b.rows[id].orderId.Some? && b.rows[id].orderId.value < |b.db.orders| &&
                       var order := b.db.orders[b.rows[id].orderId.value];
                       order.payment == Paid && order.payBy == BankTransfer && order.total == b.rows[id].amount)
    && (forall o :: 0 <= o < |b.db.orders| ==> (b.db.orders[o].payment == Paid <==> b.db.orders[o].paidAt.Some?))
    && (forall o :: 0 <= o < |b.db.orders| && b.db.orders[o].payment == Paid ==> exists id :: MatchedFor(b, id, o))
    && (forall id1, id2, o :: MatchedFor(b, id1, o) && MatchedFor(b, id2, o) ==> id1 == id2)
  }

  ghost predicate BooksOk(b: Books) {
    DbOk(b.db) && LedgerOk(b)
  }

  datatype Event = Deliver(payload: Payload, now: nat) | Change(op: Op)

  predicate CanHappen(b: Books, e: Event) {
    e.Change? ==> CanDo(b.db, e.op)
  }

  function Happen(b: Books, e: Event): Books
    requires CanHappen(b, e)
  {
    match e
    case Deliver(payload, now) => Settle(b, payload, now).0
    case Change(op) => b.(db := Do(b.db, op))
  }

  /** A new order is unpaid, and status changes leave payments alone. */
  lemma PaymentsKept(db: Db, op: Op)
    requires CanDo(db, op)
    ensures |db.orders| <= |Do(db, op).orders|
    ensures forall o :: 0 <= o < |db.orders| ==>
                          var a, c := db.orders[o], Do(db, op).orders[o];
                          a.payment == c.payment && a.paidAt == c.paidAt && a.payBy == c.payBy && a.total == c.total
    ensures forall o :: |db.orders| <= o < |Do(db, op).orders| ==>
                          Do(db, op).orders[o].payment == Unpaid && Do(db, op).orders[o].paidAt == None
  {
    hide CheckError, NextNumber, Priced;
    if op.Place? {
      CheckedIdsExist(db.plants, op.request.lines);
    }
  }

  lemma {:induction false} ChangeKeepsLedger(b: Books, op: Op)
    requires LedgerOk(b) && CanDo(b.db, op)
    ensures LedgerOk(b.(db := Do(b.db, op)))
  {
    hide CanDo, Do;
    PaymentsKept(b.db, op);
    var b1 := b.(db := Do(b.db, op));
    forall o | 0 <= o < |b1.db.orders| && b1.db.orders[o].payment == Paid
      ensures exists id :: MatchedFor(b1, id, o)
    {
      var id :| MatchedFor(b, id, o);
      assert MatchedFor(b1, id, o);
    }
    forall id1, id2, o | MatchedFor(b1, id1, o) && MatchedFor(b1, id2, o)
      ensures id1 == id2
    {
      assert MatchedFor(b, id1, o) && MatchedFor(b, id2, o);
    }
  }

  /** Whichever bank-transfer order a new payload is settled on. */
  lemma {:induction false} SettleOnKeepsLedger(b: Books, payload: Payload, target: Option<nat>, now: nat)
    requires LedgerOk(b) && payload.id !in b.rows
    requires target.Some? ==> target.value < |b.db.orders| && b.db.orders[target.value].payBy == BankTransfer
    ensures LedgerOk(SettleOn(b, payload, target, now).0)
  {
    var b1 := SettleOn(b, payload, target, now).0;
    forall o | 0 <= o < |b1.db.orders| && b1.db.orders[o].payment == Paid
      ensures exists id :: MatchedFor(b1, id, o)
    {
      if b.db.orders[o].payment == Paid {
        var id :| MatchedFor(b, id, o);
        assert MatchedFor(b1, id, o);
      } else {
        assert MatchedFor(b1, payload.id, o);
      }
    }
    forall id1, id2, o | MatchedFor(b1, id1, o) && MatchedFor(b1, id2, o)
      ensures id1 == id2
    {
      if id1 != payload.id && id2 != payload.id {
        assert MatchedFor(b, id1, o) && MatchedFor(b, id2, o);
      }
    }
  }

  lemma {:induction false} SettleOnKeepsDb(b: Books, payload: Payload, target: Option<nat>, now: nat)
    requires DbOk(b.db) && (target.Some? ==> target.value < |b.db.orders|)
    ensures DbOk(SettleOn(b, payload, target, now).0.db)
  {
    hide ItemsTotal, IssuedNumber, PaymentReferenceFor;
    var db1 := SettleOn(b, payload, target, now).0.db;
    forall i | 0 <= i < |db1.orders|
      ensures OrderOk(db1.plants, db1.orders[i])
    {
      assert OrderOk(b.db.plants, b.db.orders[i]);
    }
  }

  lemma {:induction false} SettleKeepsBooks(b: Books, payload: Payload, now: nat)
    requires BooksOk(b)
    ensures BooksOk(Settle(b, payload, now).0)
  {
    hide LedgerOk, DbOk, SettleOn, Candidates;
    if payload.id !in b.rows {
      var target := Resolve(b.db.orders, payload);
      SettleOnKeepsLedger(b, payload, target, now);
      SettleOnKeepsDb(b, payload, target, now);
    }
  }

  ghost predicate AllHappen(b: Books, es: seq<Event>)
    decreases |es|
  {
    es == [] || (CanHappen(b, es[0]) && AllHappen(Happen(b, es[0]), es[1..]))
  }

  function After(b: Books, es: seq<Event>): Books
    requires AllHappen(b, es)
    decreases |es|
  {
    if es == [] then b else After(Happen(b, es[0]), es[1..])
  }

  /** In every reachable state an order is paid exactly if one matched row names it,
      with its total and as a transfer. */
  lemma {:induction false} LedgerHolds(b: Books, es: seq<Event>)
    requires BooksOk(b) && AllHappen(b, es)
    ensures BooksOk(After(b, es))
    decreases |es|
  {
    hide LedgerOk, DbOk, Settle, Do, CanDo;
    if es != [] {
      match es[0] {
        case Deliver(payload, now) =>
          SettleKeepsBooks(b, payload, now);
        case Change(op) =>
          ChangeKeepsLedger(b, op);
          DoKeepsOk(b.db, op);
      }
      LedgerHolds(Happen(b, es[0]), es[1..]);
    }
  }

  /** Once set, the payment of an order is never touched again. */
  lemma {:induction false} PaidForGood(b: Books, es: seq<Event>, o: nat)
    requires AllHappen(b, es) && o < |b.db.orders| && b.db.orders[o].payment == Paid
    ensures o < |After(b, es).db.orders|
    ensures After(b, es).db.orders[o].payment == Paid && After(b, es).db.orders[o].paidAt == b.db.orders[o].paidAt
    decreases |es|
  {
    hide Candidates, Do, CanDo;
    if es != [] {
      if es[0].Change? {
        PaymentsKept(b.db, es[0].op);
      }
      PaidForGood(Happen(b, es[0]), es[1..], o);
    }
  }

  // ----- Order of deliveries -----

  function DeliverAll(b: Books, ds: seq<(Payload, nat)>): Books
    decreases |ds|
  {
    if ds == [] then b else DeliverAll(Settle(b, ds[0].0, ds[0].1).0, ds[1..])
  }

  function PaidOrders(b: Books): set<nat> {
    set o | 0 <= o < |b.db.orders| && b.db.orders[o].payment == Paid
  }

  /** The order the payload pays, if it is unpaid when the payload arrives first. */
  function Pays(orders: seq<Order>, payload: Payload): set<nat> {
    var target := Resolve(orders, payload);
    if target.Some? && payload.amount == orders[target.value].total then {target.value} else {}
  }

  /** What the settled orders share with the orders before. */
  predicate SameTerms(a: seq<Order>, c: seq<Order>) {
    |a| == |c| &&
    forall i :: 0 <= i < |a| ==>
                  a[i].payBy == c[i].payBy && a[i].reference == c[i].reference &&
                  a[i].createdAt == c[i].createdAt && a[i].total == c[i].total
  }

  lemma {:induction false} OldestFrame(a: seq<Order>, c: seq<Order>, references: set<string>)
    requires SameTerms(a, c)
    ensures OldestNamed(a, references) == OldestNamed(c, references)
  {
    if a != [] {
      OldestFrame(a[..|a| - 1], c[..|c| - 1], references);
    }
  }

  lemma SettleOnce(b: Books, payload: Payload, now: nat)
    ensures var b1 := Settle(b, payload, now).0;
            SameTerms(b.db.orders, b1.db.orders) &&
            b1.rows.Keys == b.rows.Keys + {payload.id} &&
            PaidOrders(b1) == PaidOrders(b) + if payload.id in b.rows then {} else Pays(b.db.orders, payload)
  {
    hide Candidates;
  }

  function PayloadsOf(ds: seq<(Payload, nat)>): set<Payload> {
    set d | d in ds :: d.0
  }

  /** Redeliveries repeat the payload of their id. */
  predicate Consistent(ps: set<Payload>) {
    forall p, q :: p in ps && q in ps && p.id == q.id ==> p == q
  }

  ghost predicate PaidBy(b: Books, ps: set<Payload>, o: nat) {
    exists p :: p in ps && p.id !in b.rows && o in Pays(b.db.orders, p)
  }

  lemma PaysFrame(a: seq<Order>, c: seq<Order>, payload: Payload)
    requires SameTerms(a, c)
    ensures Pays(a, payload) == Pays(c, payload) && Resolve(a, payload) == Resolve(c, payload)
  {
    hide Candidates, OldestNamed;
    OldestFrame(a, c, Candidates(payload));
  }

  /** The paid orders after any deliveries, read off the set of distinct payloads alone. */
  lemma {:induction false} PaidByPayloads(b: Books, ds: seq<(Payload, nat)>, o: nat)
    requires Consistent(PayloadsOf(ds))
    ensures o in PaidOrders(DeliverAll(b, ds)) <==> o in PaidOrders(b) || PaidBy(b, PayloadsOf(ds), o)
    decreases |ds|
  {
    hide Settle, Pays, PaidOrders;
    if ds != [] {
      var p, now := ds[0].0, ds[0].1;
      var b1 := Settle(b, p, now).0;
      SettleOnce(b, p, now);
      assert ds == [ds[0]] + ds[1..];
      assert PayloadsOf(ds) == {p} + PayloadsOf(ds[1..]);
      PaidByPayloads(b1, ds[1..], o);
      if PaidBy(b, PayloadsOf(ds), o) {
        var q :| q in PayloadsOf(ds) && q.id !in b.rows && o in Pays(b.db.orders, q);
        PaysFrame(b.db.orders, b1.db.orders, q);
        if q != p {
          assert PaidBy(b1, PayloadsOf(ds[1..]), o);
        }
      }
      if PaidBy(b1, PayloadsOf(ds[1..]), o) {
        var q :| q in PayloadsOf(ds[1..]) && q.id !in b1.rows && o in Pays(b1.db.orders, q);
        PaysFrame(b.db.orders, b1.db.orders, q);
        assert q in PayloadsOf(ds);
      }
    }
  }

  /** Reordering, repeating or dropping repeats of deliveries never changes which orders are paid. */
  lemma {:induction false} DeliveryOrderIrrelevant(b: Books, ds1: seq<(Payload, nat)>, ds2: seq<(Payload, nat)>)
    requires PayloadsOf(ds1) == PayloadsOf(ds2) && Consistent(PayloadsOf(ds1))
    ensures PaidOrders(DeliverAll(b, ds1)) == PaidOrders(DeliverAll(b, ds2))
  {
    hide Settle, PaidOrders, DeliverAll, PaidBy;
    forall o: nat
      ensures o in PaidOrders(DeliverAll(b, ds1)) <==> o in PaidOrders(DeliverAll(b, ds2))
    {
      PaidByPayloads(b, ds1, o);
      PaidByPayloads(b, ds2, o);
    }
  }

  /** The log, too, is the same up to the statuses: one row per id, with its order and amount. */
  lemma {:induction false} LogByPayloads(b: Books, ds: seq<(Payload, nat)>, p: Payload)
    requires Consistent(PayloadsOf(ds)) && p in PayloadsOf(ds) && p.id !in b.rows
    ensures var rows := DeliverAll(b, ds).rows;
            p.id in rows && rows[p.id].orderId == Resolve(b.db.orders, p) && rows[p.id].amount == p.amount
    decreases |ds|
  {
    hide Candidates, Pays, PaidOrders, OldestNamed;
    var b1 := Settle(b, ds[0].0, ds[0].1).0;
    assert ds == [ds[0]] + ds[1..];
    assert PayloadsOf(ds) == {ds[0].0} + PayloadsOf(ds[1..]);
    SettleOnce(b, ds[0].0, ds[0].1);
    if p == ds[0].0 {
      RowsStay(b1, ds[1..], p.id);
    } else {
      LogByPayloads(b1, ds[1..], p);
      PaysFrame(b.db.orders, b1.db.orders, p);
    }
  }

  lemma {:induction false} RowsStay(b: Books, ds: seq<(Payload, nat)>, id: int)
    requires id in b.rows
    ensures id in DeliverAll(b, ds).rows && DeliverAll(b, ds).rows[id] == b.rows[id]
    decreases |ds|
  {
    hide Candidates, OldestNamed;
    if ds != [] {
      RowsStay(Settle(b, ds[0].0, ds[0].1).0, ds[1..], id);
    }
  }

  // ----- What the customer is told, and what the pattern finds -----

  /** `amount.quantize(Decimal("1"))` of an amount in cents: to the nearest, ties to even. */
  function WholeVnd(cents: nat): nat {
    var vnd, rest := cents / 100, cents % 100;
    if rest < 50 || (rest == 50 && vnd % 2 == 0) then vnd else vnd + 1
  }

  datatype Instructions = Instructions(account: string, amount: nat, reference: string)

  /** `bank_transfer_info`, for the shop's configured account number, if any. */
  function BankTransferInfo(order: Order, account: string): Option<Instructions>
    requires order.total >= 0
  {
    if order.payBy != BankTransfer || order.reference.None? || account == "" then None
    else Some(Instructions(account, WholeVnd(order.total), order.reference.value))
  }

  lemma ShownAmountExact(cents: nat)
    ensures WholeVnd(cents) * 100 == cents <==> cents % 100 == 0
    ensures -50 <= WholeVnd(cents) * 100 - cents <= 50
  {
  }

  lemma {:induction false} FindAllSound(s: string, m: string)
    requires m in FindAll(s)
    ensures |m| == 14 && Occurs(s, m)
    decreases |s|
  {
    hide ReferenceAt;
    var k := if ReferenceAt(s) then 14 else 1;
    if ReferenceAt(s) && m == s[..14] {
      assert OccursAt(s, m, 0);
    } else {
      FindAllSound(s[k..], m);
      var i: nat :| OccursAt(s[k..], m, i);
      assert s[k..][i..i + |m|] == s[i + k..i + k + |m|];
      assert OccursAt(s, m, i + k);
    }
  }

  /** No match can run from the padding into a reference: a reference begins with a G. */
  lemma {:induction false} FindsReference(pre: string, r: string, post: string)
    requires |r| == 14 && ReferenceAt(r)
    ensures r in FindAll(pre + r + post)
    decreases |pre|
  {
    hide IsDecimalDigit, UpperAscii;
    var s := pre + r + post;
    assert forall i :: 0 <= i < 14 ==> s[|pre| + i] == r[i];
    GIsNoDigit(r[0]);
    GIsNoDigit(r[1]);
    if pre == "" {
      assert s[..14] == r;
    } else if ReferenceAt(s) {
      assert s[|pre|] == r[0] && s[|pre| + 1] == r[1];
      assert |pre| >= 14;
      assert s[14..] == pre[14..] + r + post;
      FindsReference(pre[14..], r, post);
    } else {
      assert s[1..] == pre[1..] + r + post;
      FindsReference(pre[1..], r, post);
    }
  }

  lemma GIsNoDigit(c: char)
    ensures UpperAscii(c) == 'G' ==> !IsDecimalDigit(c)
  {
    hide IsOtherDigit;
  }

  /** A reference is its own upper case, and the pattern matches it when it has 14 characters. */
  lemma {:induction false} ReferenceShape(day: Day, k: nat)
    ensures var r := PaymentReferenceFor(Number(day, k));
            Upper(r) == r && (|r| == 14 <==> k <= 9999) && (k <= 9999 ==> ReferenceAt(r))
  {
    hide Pad4, PaymentReferenceFor, IsOtherDigit;
    ReferenceText(day, k);
    Pad4Faithful(k);
    var r := "GG" + day + Pad4(k);
    forall i | 2 <= i < |r|
      ensures IsAsciiDigit(r[i])
    {
      if i < 10 {
        assert r[i] == day[i - 2];
      } else {
        assert r[i] == Pad4(k)[i - 10];
      }
    }
  }

  /** Free text yields the reference of an order exactly when its daily sequence has four digits. */
  lemma {:induction false} ExtractedExactlyUpTo9999(day: Day, k: nat, pre: string, post: string)
    ensures var r := PaymentReferenceFor(Number(day, k));
            r in Found(Some(pre + r + post)) <==> k <= 9999
  {
    hide FindAll, ReferenceAt, Upper, PaymentReferenceFor, Number;
    var r := PaymentReferenceFor(Number(day, k));
    var s := pre + r + post;
    ReferenceShape(day, k);
    if k <= 9999 {
      FindsReference(pre, r, post);
    } else if r in Found(Some(s)) {
      var m :| m in FindAll(s) && Upper(m) == r;
      FindAllSound(s, m);
      UpperLength(m);
    }
  }

  lemma UpperLength(s: string)
    ensures |Upper(s)| == |s|
  {
  }

  /** Past 9999 the pattern cuts a reference short, into the reference of an order ten times earlier that day. */
  lemma {:induction false} FiveDigitsNameAnotherOrder(day: Day, k: nat)
    requires 10000 <= k < 100000
    ensures FindAll(PaymentReferenceFor(Number(day, k))) == [PaymentReferenceFor(Number(day, k / 10))]
  {
    hide PaymentReferenceFor, ReferenceAt, IsOtherDigit;
    var r, r10 := PaymentReferenceFor(Number(day, k)), PaymentReferenceFor(Number(day, k / 10));
    ReferenceText(day, k);
    ReferenceText(day, k / 10);
    ReferenceShape(day, k / 10);
    NumeralLength(k / 10);
    NumeralLength(k);
    assert Numeral(k) == Numeral(k / 10) + [Digit(k % 10)];
    assert |Numeral(k / 10)| == 4;
    assert Pad4(k) == Numeral(k) && Pad4(k / 10) == Numeral(k / 10);
    assert r == r10 + [Digit(k % 10)];
    assert r[..14] == r10;
    assert ReferenceAt(r) by {
      SameStart(r10, r);
    }
    assert |r[14..]| == 1;
  }

  lemma SameStart(a: string, c: string)
    requires a <= c && ReferenceAt(a)
    ensures ReferenceAt(c)
  {
    hide IsDecimalDigit, UpperAscii;
  }

  // ----- End to end -----

  /** Some field of the payload spells the reference, in any case. */
  ghost predicate Spells(text: Option<string>, reference: string) {
    text.Some? && Occurs(Upper(text.value), reference)
  }

  ghost predicate Mentions(payload: Payload, reference: string) {
    Spells(payload.code, reference) || Spells(payload.content, reference) || Spells(payload.description, reference)
  }

  lemma {:induction false} FoundIsSpelled(text: Option<string>, reference: string)
    requires reference in Found(text)
    ensures Spells(text, reference)
  {
    hide FindAll;
    var s := text.value;
    var m :| m in FindAll(s) && Upper(m) == reference;
    FindAllSound(s, m);
    var i: nat :| OccursAt(s, m, i);
    UpperOccurs(s, m, i);
  }

  lemma {:induction false} CodeIsSpelled(code: Option<string>, reference: string)
    requires reference in CodeReference(code)
    ensures Spells(code, reference)
  {
    hide Strip, Upper;
    var i := StripOccurs(IsSpace, code.value);
    UpperOccurs(code.value, Strip(IsSpace, code.value), i);
  }

  /** Every candidate is spelled somewhere in the payload. */
  lemma CandidateIsMentioned(payload: Payload, reference: string)
    requires reference in Candidates(payload)
    ensures Mentions(payload, reference)
  {
    hide Found, CodeReference, Spells;
    if reference in CodeReference(payload.code) {
      CodeIsSpelled(payload.code, reference);
    } else if reference in Found(payload.content) {
      FoundIsSpelled(payload.content, reference);
    } else {
      FoundIsSpelled(payload.description, reference);
    }
  }

  /** An order is named by the payload's content, and no other order is mentioned: then it is the one resolved. */
  lemma {:induction false} ResolvesTo(orders: seq<Order>, payload: Payload, o: nat)
    requires o < |orders| && payload.transferType == Some("in")
    requires Names(orders[o], Found(payload.content))
    requires forall j :: 0 <= j < |orders| && j != o && orders[j].reference.Some? ==>
                           !Mentions(payload, orders[j].reference.value)
    ensures Resolve(orders, payload) == Some(o)
  {
    hide Found, CodeReference, Mentions, OldestNamed;
    forall j | 0 <= j < |orders| && j != o
      ensures !Names(orders[j], Candidates(payload))
    {
      if Names(orders[j], Candidates(payload)) {
        CandidateIsMentioned(payload, orders[j].reference.value);
      }
    }
  }

  /** Follow the instructions and you are paid, exactly when the total is a whole number of VND. */
  lemma {:induction false} FollowTheInstructions(
    b: Books, o: nat, day: Day, k: nat, account: string, payload: Payload, pre: string, post: string, now: nat)
    requires BooksOk(b) && o < |b.db.orders|
    requires var order := b.db.orders[o];
             order.payBy == BankTransfer && order.payment == Unpaid &&
             order.number == Number(day, k) && order.total >= 0
    requires k <= 9999 && account != ""
    requires payload.id !in b.rows && payload.transferType == Some("in")
    requires var info := BankTransferInfo(b.db.orders[o], account);
             info.Some? && payload.amount == info.value.amount * 100 &&
             payload.content == Some(pre + info.value.reference + post)
    requires forall j :: 0 <= j < |b.db.orders| && j != o && b.db.orders[j].reference.Some? ==>
                           !Mentions(payload, b.db.orders[j].reference.value)
    ensures var (b1, answer) := Settle(b, payload, now);
            if b.db.orders[o].total % 100 == 0
            then answer == Some(Matched) &&
                 b1.db == b.db.(orders := b.db.orders[o := MarkPaid(b.db.orders[o], now)])
            else answer == Some(AmountMismatch) && b1.db == b.db
  {
    hide Candidates, Found, PaymentReferenceFor, Number, Mentions, LedgerOk, ItemsTotal, IssuedNumber;
    var order := b.db.orders[o];
    assert OrderOk(b.db.plants, order);
    ExtractedExactlyUpTo9999(day, k, pre, post);
    ResolvesTo(b.db.orders, payload, o);
    ShownAmountExact(order.total);
  }
}
