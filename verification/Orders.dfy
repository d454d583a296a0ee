/** Pricing, stock movements and status changes of orders. Money is a whole number of cents. */
module Orders {
  import opened Wrappers
  import opened Characters
  import opened OrderNumbers

  type PlantId = nat

  datatype Plant = Plant(name: string, nameVi: Option<string>, stock: int, isActive: bool, priceVi: Option<nat>)

  /** One requested line. */
  datatype Line = Line(plantId: PlantId, quantity: int)

  datatype OrderStatus = Pending | Confirmed | Processing | Shipping | Completed | Cancelled

  datatype PaymentMethod = Cod | BankTransfer

  datatype PaymentStatus = Unpaid | Paid

  /** A stored line: name and unit price are snapshots. */
  datatype Item = Item(plantId: PlantId, plantName: string, quantity: int, unitPrice: nat)

  datatype Order = Order(
    number: string, status: OrderStatus, items: seq<Item>,
    subtotal: int, shippingFee: int, total: int,
    payBy: PaymentMethod, reference: Option<string>,
    payment: PaymentStatus, paidAt: Option<nat>, createdAt: nat)

  /** The two committed tables that checkout works on. */
  datatype Db = Db(plants: map<PlantId, Plant>, orders: seq<Order>)

  /** What a checkout asks for; `createdAt` is the database time of its transaction. */
  datatype Request = Request(lines: seq<Line>, payBy: PaymentMethod, createdAt: nat)

  datatype Error =
    | PlantNotFound | PlantUnavailable | InsufficientStock | OrderTotalTooLarge | ConstraintViolation
    | OrderNotFound | InvalidStatusTransition | TransactionAborted

  const FREE_SHIPPING_ABOVE := 500000_00
  const SHIPPING_FEE := 50000_00
  const MAX_TOTAL_AMOUNT := 9999999999_99

  // ----- Pricing -----

  datatype PricedLine = PricedLine(line: Line, unitPrice: nat, lineTotal: int, error: Option<Error>)

  datatype OrderPrice = OrderPrice(lines: seq<PricedLine>, subtotal: int, shippingFee: int, total: int)

  function ShippingFeeFor(subtotal: int): int {
    if subtotal >= FREE_SHIPPING_ABOVE then 0 else SHIPPING_FEE
  }

  function AmountToFreeShipping(subtotal: int): int {
    if subtotal >= FREE_SHIPPING_ABOVE then 0 else FREE_SHIPPING_ABOVE - subtotal
  }

  function SnapshotName(plant: Plant): string {
    var trimmed := if plant.nameVi.Some? then Strip(IsSpace, plant.nameVi.value) else "";
    if trimmed == "" then plant.name else trimmed
  }

  predicate Sellable(plants: map<PlantId, Plant>, p: PlantId) {
    p in plants && plants[p].isActive && plants[p].priceVi.Some?
  }

  function UnitPrice(plants: map<PlantId, Plant>, p: PlantId): nat {
    if Sellable(plants, p) then plants[p].priceVi.value else 0
  }

  function PriceLine(plants: map<PlantId, Plant>, line: Line): PricedLine {
    if line.plantId !in plants then PricedLine(line, 0, 0, Some(PlantNotFound))
    else if !Sellable(plants, line.plantId) then PricedLine(line, 0, 0, Some(PlantUnavailable))
    else
      var price := UnitPrice(plants, line.plantId);
      PricedLine(line, price, price * line.quantity, None)
  }

  function PriceLines(plants: map<PlantId, Plant>, lines: seq<Line>): (r: seq<PricedLine>)
    ensures |r| == |lines|
    ensures forall i :: 0 <= i < |lines| ==> r[i] == PriceLine(plants, lines[i])
  {
    seq(|lines|, i requires 0 <= i < |lines| => PriceLine(plants, lines[i]))
  }

  /** The sum of unit price times quantity over the lines that can be sold. */
  function Subtotal(plants: map<PlantId, Plant>, lines: seq<Line>): int {
    if lines == [] then 0
    else Subtotal(plants, lines[..|lines| - 1]) + PriceLine(plants, lines[|lines| - 1]).lineTotal
  }

  function Priced(plants: map<PlantId, Plant>, lines: seq<Line>): OrderPrice {
    var subtotal := Subtotal(plants, lines);
    var fee := if exists i :: 0 <= i < |lines| && Sellable(plants, lines[i].plantId)
               then ShippingFeeFor(subtotal) else 0;
    OrderPrice(PriceLines(plants, lines), subtotal, fee, subtotal + fee)
  }

  method PriceOrder(lines: seq<Line>, plants: map<PlantId, Plant>) returns (price: OrderPrice)
    ensures price == Priced(plants, lines)
  {
    var priced: seq<PricedLine> := [];
    var subtotal := 0;
    var hasSellableLine := false;
    for i := 0 to |lines|
      invariant priced == PriceLines(plants, lines[..i])
      invariant subtotal == Subtotal(plants, lines[..i])
      invariant hasSellableLine <==> exists j :: 0 <= j < i && Sellable(plants, lines[j].plantId)
    {
      var line := lines[i];
      assert lines[..i + 1] == lines[..i] + [line];
      if line.plantId !in plants {
        priced := priced + [PricedLine(line, 0, 0, Some(PlantNotFound))];
      } else {
        var plant := plants[line.plantId];
        if !plant.isActive || plant.priceVi.None? {
          priced := priced + [PricedLine(line, 0, 0, Some(PlantUnavailable))];
        } else {
          var unitPrice := plant.priceVi.value;
          var lineTotal := unitPrice * line.quantity;
          subtotal := subtotal + lineTotal;
          hasSellableLine := true;
          priced := priced + [PricedLine(line, unitPrice, lineTotal, None)];
        }
      }
    }
    assert lines[..|lines|] == lines;
    var shipping := if hasSellableLine then ShippingFeeFor(subtotal) else 0;
    price := OrderPrice(priced, subtotal, shipping, subtotal + shipping);
  }

  // ----- Quantities per plant -----

  function Ids(lines: seq<Line>): set<PlantId> {
    set line | line in lines :: line.plantId
  }

  function Requested(lines: seq<Line>, p: PlantId): int {
    if lines == [] then 0
    else
      var last := lines[|lines| - 1];
      Requested(lines[..|lines| - 1], p) + if last.plantId == p then last.quantity else 0
  }

  /** The plants in the order of their first line, as a Python dictionary keeps them. */
  function FirstSeen(lines: seq<Line>): (r: seq<PlantId>)
    ensures forall p :: p in r <==> p in Ids(lines)
  {
    if lines == [] then []
    else
      var init, last := lines[..|lines| - 1], lines[|lines| - 1];
      assert lines == init + [last];
      assert Ids(lines) == Ids(init) + {last.plantId};
      var r := FirstSeen(init);
      if last.plantId in Ids(init) then r else r + [last.plantId]
  }

  // ----- Checkout as one atomic step -----

  /** The first plant of `order` that is inactive or short of stock. */
  function StockError(plants: map<PlantId, Plant>, lines: seq<Line>, order: seq<PlantId>): Option<Error>
    requires forall p :: p in order ==> p in plants
  {
    if order == [] then None
    else
      var plant := plants[order[0]];
      if !plant.isActive then Some(PlantUnavailable)
      else if plant.stock < Requested(lines, order[0]) then Some(InsufficientStock)
      else StockError(plants, lines, order[1..])
  }

  /** Why the lines cannot be sold from `plants`, if they cannot. */
  function CheckError(plants: map<PlantId, Plant>, lines: seq<Line>): Option<Error> {
    if !(Ids(lines) <= plants.Keys) then Some(PlantNotFound)
    else
      var stock := StockError(plants, lines, FirstSeen(lines));
      if stock.Some? then stock
      else if exists i :: 0 <= i < |lines| && !Sellable(plants, lines[i].plantId) then Some(PlantUnavailable)
      else if Priced(plants, lines).total > MAX_TOTAL_AMOUNT then Some(OrderTotalTooLarge)
      else None
  }

  /** The check constraint `quantity > 0` of the order lines table. */
  predicate QuantitiesPositive(lines: seq<Line>) {
    forall line :: line in lines ==> line.quantity > 0
  }

  function NumbersOf(orders: seq<Order>): (r: seq<string>)
    ensures |r| == |orders|
    ensures forall i :: 0 <= i < |orders| ==> r[i] == orders[i].number
  {
    seq(|orders|, i requires 0 <= i < |orders| => orders[i].number)
  }

  /** The numbers of `day` among the committed orders. */
  function TakenOn(orders: seq<Order>, day: Day): set<string> {
    TakenIn(NumbersOf(orders), day)
  }

  function NextNumber(orders: seq<Order>, day: Day): string {
    Number(day, NextSequence(TakenOn(orders, day), day))
  }

  function ItemsFor(plants: map<PlantId, Plant>, lines: seq<Line>): (r: seq<Item>)
    requires Ids(lines) <= plants.Keys
    ensures |r| == |lines|
    ensures forall i :: 0 <= i < |lines| ==>
                          lines[i].plantId in plants &&
                          r[i] == Item(lines[i].plantId, SnapshotName(plants[lines[i].plantId]), lines[i].quantity,
                                       UnitPrice(plants, lines[i].plantId))
  {
    assert forall i :: 0 <= i < |lines| ==> lines[i].plantId in Ids(lines);
    seq(|lines|, i requires 0 <= i < |lines| =>
                   Item(lines[i].plantId, SnapshotName(plants[lines[i].plantId]), lines[i].quantity,
                        UnitPrice(plants, lines[i].plantId)))
  }

  function NewOrder(plants: map<PlantId, Plant>, request: Request, number: string): Order
    requires Ids(request.lines) <= plants.Keys
  {
    var price := Priced(plants, request.lines);
    Order(number, Pending, ItemsFor(plants, request.lines), price.subtotal, price.shippingFee, price.total,
          request.payBy,
          if request.payBy == BankTransfer then Some(PaymentReferenceFor(number)) else None,
          Unpaid, None, request.createdAt)
  }

  /** Every ordered plant has its requested quantity taken off. */
  function Deducted(plants: map<PlantId, Plant>, lines: seq<Line>): map<PlantId, Plant> {
    map p | p in plants ::
      if p in Ids(lines) then plants[p].(stock := plants[p].stock - Requested(lines, p)) else plants[p]
  }

  /** `create_order` on one committed state, all or nothing. */
  function PlaceOrder(db: Db, request: Request, day: Day): Result<Db, Error> {
    var error := CheckError(db.plants, request.lines);
    if error.Some? then Failure(error.value)
    else if !QuantitiesPositive(request.lines) then Failure(ConstraintViolation)
    else
      var order := NewOrder(db.plants, request, NextNumber(db.orders, day));
      Success(Db(Deducted(db.plants, request.lines), db.orders + [order]))
  }

  // ----- Status changes -----

  function FlowIndex(status: OrderStatus): nat
    requires status != Cancelled
  {
    match status
    case Pending => 0
    case Confirmed => 1
    case Processing => 2
    case Shipping => 3
    case Completed => 4
  }

  predicate Terminal(status: OrderStatus) {
    status == Completed || status == Cancelled
  }

  predicate TransitionAllowed(current: OrderStatus, target: OrderStatus) {
    !Terminal(current) && (target == Cancelled || FlowIndex(target) >= FlowIndex(current))
  }

  function Ordered(items: seq<Item>, p: PlantId): int {
    if items == [] then 0
    else
      var last := items[|items| - 1];
      Ordered(items[..|items| - 1], p) + if last.plantId == p then last.quantity else 0
  }

  function ItemIds(items: seq<Item>): set<PlantId> {
    set item | item in items :: item.plantId
  }

  /** Every plant of the order gets its quantity back. */
  function Restocked(plants: map<PlantId, Plant>, items: seq<Item>): map<PlantId, Plant> {
    map p | p in plants ::
      if p in ItemIds(items) then plants[p].(stock := plants[p].stock + Ordered(items, p)) else plants[p]
  }

  /** The rows of `keys` with `delta` added to their stock. */
  function Moved(plants: map<PlantId, Plant>, keys: set<PlantId>, delta: map<PlantId, int>): map<PlantId, Plant>
    requires keys <= delta.Keys
  {
    map p | p in plants ::
      if p in keys then plants[p].(stock := plants[p].stock + delta[p]) else plants[p]
  }

  /** The writes of a status change, whatever the committed status is by now. */
  function WriteStatus(db: Db, o: nat, target: OrderStatus): Db
    requires o < |db.orders|
  {
    Db(if target == Cancelled then Restocked(db.plants, db.orders[o].items) else db.plants,
       db.orders[o := db.orders[o].(status := target)])
  }

  /** `update_order_status` on one committed state. */
  function UpdateStatus(db: Db, o: nat, target: OrderStatus): Result<Db, Error> {
    if o >= |db.orders| then Failure(OrderNotFound)
    else if target == db.orders[o].status then Success(db)
    else if !TransitionAllowed(db.orders[o].status, target) then Failure(InvalidStatusTransition)
    else Success(WriteStatus(db, o, target))
  }

  // ----- The service object -----

  /** The order service over its two tables, one call at a time. */
  class OrderService {
    var plants: map<PlantId, Plant>
    var orders: seq<Order>

    constructor (db: Db)
      ensures State() == db
    {
      plants, orders := db.plants, db.orders;
    }

    ghost function State(): Db
      reads this
    {
      Db(plants, orders)
    }

    method QuoteOrder(lines: seq<Line>) returns (price: OrderPrice)
      ensures price == Priced(plants, lines)
    {
      var rows := map p | p in plants && p in Ids(lines) :: plants[p];
      price := PriceOrder(lines, rows);
      PricedFrame(rows, plants, lines);
    }

    /** The quantities summed per plant, and the plants in dictionary order. */
    method SumRequested(lines: seq<Line>) returns (requested: map<PlantId, int>, order: seq<PlantId>)
      ensures requested.Keys == Ids(lines)
      ensures forall p :: p in Ids(lines) ==> requested[p] == Requested(lines, p)
      ensures order == FirstSeen(lines)
    {
      hide Requested, FirstSeen;
      requested, order := map[], [];
      RequestedNothing();
      for i := 0 to |lines|
        invariant requested.Keys == Ids(lines[..i])
        invariant forall p :: p in Ids(lines[..i]) ==> requested[p] == Requested(lines[..i], p)
        invariant order == FirstSeen(lines[..i])
      {
        var line := lines[i];
        assert lines[..i + 1] == lines[..i] + [line];
        RequestedOutside(lines[..i], line.plantId);
        RequestedSnoc(lines[..i], line);
        if line.plantId in requested {
          requested := requested[line.plantId := requested[line.plantId] + line.quantity];
        } else {
          requested := requested[line.plantId := line.quantity];
          order := order + [line.plantId];
        }
      }
      assert lines[..|lines|] == lines;
    }

    /** The stock check, plant by plant in dictionary order. */
    method FindStockError(ghost lines: seq<Line>, requested: map<PlantId, int>, order: seq<PlantId>)
      returns (error: Option<Error>)
      requires forall p :: p in order ==> p in plants && p in requested && requested[p] == Requested(lines, p)
      ensures error == StockError(plants, lines, order)
    {
      for i := 0 to |order|
        invariant StockError(plants, lines, order) == StockError(plants, lines, order[i..])
      {
        var plant := plants[order[i]];
        assert order[i..][0] == order[i] && order[i..][1..] == order[i + 1..];
        if !plant.isActive {
          return Some(PlantUnavailable);
        }
        if plant.stock < requested[order[i]] {
          return Some(InsufficientStock);
        }
      }
      return None;
    }

    /** Adds `delta[p]` to the stock of every plant `p` of `order` that exists. */
    method MoveStock(order: seq<PlantId>, delta: map<PlantId, int>)
      requires forall i, j :: 0 <= i < j < |order| ==> order[i] != order[j]
      requires forall p :: p in order ==> p in delta
      modifies this`plants
      ensures plants == Moved(old(plants), (set p | p in order), delta)
    {
      ghost var before := plants;
      for i := 0 to |order|
        invariant plants.Keys == before.Keys
        invariant forall p :: p in before ==>
                                plants[p] == if p in order[..i] then before[p].(stock := before[p].stock + delta[p])
                                             else before[p]
      {
        assert order[..i + 1] == order[..i] + [order[i]];
        if order[i] in plants {
          var plant := plants[order[i]];
          plants := plants[order[i] := plant.(stock := plant.stock + delta[order[i]])];
        }
      }
      assert order[..|order|] == order;
    }

    /** The first line that cannot be priced. */
    method FindPriceError(lines: seq<Line>, priced: OrderPrice) returns (error: Option<Error>)
      requires priced == Priced(plants, lines)
      requires Ids(lines) <= plants.Keys
      ensures error == if exists i :: 0 <= i < |lines| && !Sellable(plants, lines[i].plantId)
                       then Some(PlantUnavailable) else None
    {
      for i := 0 to |lines|
        invariant forall j :: 0 <= j < i ==> Sellable(plants, lines[j].plantId)
      {
        assert lines[i].plantId in Ids(lines);
        if priced.lines[i].error.Some? {
          return priced.lines[i].error;
        }
      }
      return None;
    }

    /** Every check `create_order` makes before it writes, in its order. */
    method CheckLines(lines: seq<Line>)
      returns (error: Option<Error>, requested: map<PlantId, int>, order: seq<PlantId>)
      ensures error == CheckError(plants, lines)
      ensures requested.Keys == Ids(lines) && order == FirstSeen(lines)
      ensures forall p :: p in Ids(lines) ==> requested[p] == Requested(lines, p)
    {
      hide StockError, FirstSeen, Requested, Subtotal;
      requested, order := SumRequested(lines);
      var rows := map p | p in plants && p in Ids(lines) :: plants[p];
      if !(Ids(lines) <= rows.Keys) {
        error := Some(PlantNotFound);
        return;
      }
      error := FindStockError(lines, requested, order);
      if error.Some? {
        return;
      }
      var priced := PriceOrder(lines, rows);
      PricedFrame(rows, plants, lines);
      error := FindPriceError(lines, priced);
      if error.None? && priced.total > MAX_TOTAL_AMOUNT {
        error := Some(OrderTotalTooLarge);
      }
    }

    method CreateOrder(request: Request, day: Day) returns (r: Result<Order, Error>)
      modifies this
      ensures match PlaceOrder(old(State()), request, day)
              case Failure(e) => r == Failure(e) && State() == old(State())
              case Success(db) => State() == db && r == Success(db.orders[|old(orders)|])
    {
      hide CheckError, StockError, FirstSeen, Requested, Number, NextSequence, TakenIn, NewOrder;
      var lines := request.lines;
      var error, requested, order := CheckLines(lines);
      if error.Some? {
        return Failure(error.value);
      }
      CheckedIdsExist(plants, lines);
      var number := GenerateOrderNumber(NumbersOf(orders), day);
      if exists line :: line in lines && line.quantity <= 0 {
        return Failure(ConstraintViolation);
      }
      var created := NewOrder(plants, request, number);
      orders := orders + [created];
      var taken := map p | p in requested :: -requested[p];
      FirstSeenDistinct(lines);
      ghost var before := plants;
      MoveStock(order, taken);
      assert (set p | p in order) == Ids(lines);
      assert plants == Deducted(before, lines);
      return Success(created);
    }

    /** The quantities of an order summed per plant, and the plants in dictionary order. */
    method SumOrdered(items: seq<Item>) returns (quantities: map<PlantId, int>, order: seq<PlantId>)
      ensures quantities.Keys == ItemIds(items)
      ensures forall p :: p in quantities ==> quantities[p] == Ordered(items, p)
      ensures forall p :: p in order <==> p in quantities
      ensures forall i, j :: 0 <= i < j < |order| ==> order[i] != order[j]
    {
      hide Ordered;
      quantities, order := map[], [];
      for i := 0 to |items|
        invariant quantities.Keys == ItemIds(items[..i])
        invariant forall p :: p in quantities ==> quantities[p] == Ordered(items[..i], p)
        invariant forall p :: p in order <==> p in quantities
        invariant forall j, k :: 0 <= j < k < |order| ==> order[j] != order[k]
      {
        var item := items[i];
        assert items[..i + 1] == items[..i] + [item];
        OrderedOutside(items[..i], item.plantId);
        OrderedSnoc(items[..i], item);
        if item.plantId in quantities {
          quantities := quantities[item.plantId := quantities[item.plantId] + item.quantity];
        } else {
          quantities := quantities[item.plantId := item.quantity];
          order := order + [item.plantId];
        }
      }
      assert items[..|items|] == items;
    }

    /** Gives the quantities of `items` back to the plants. */
    method RestoreStock(items: seq<Item>)
      modifies this`plants
      ensures plants == Restocked(old(plants), items)
    {
      var quantities, order := SumOrdered(items);
      ghost var before := plants;
      MoveStock(order, quantities);
      assert (set p | p in order) == ItemIds(items);
      assert plants == Restocked(before, items);
    }

    method UpdateOrderStatus(o: nat, target: OrderStatus) returns (r: Result<Order, Error>)
      modifies this
      ensures match UpdateStatus(old(State()), o, target)
              case Failure(e) => r == Failure(e) && State() == old(State())
              case Success(db) => State() == db && o < |db.orders| && r == Success(db.orders[o])
    {
      if o >= |orders| {
        return Failure(OrderNotFound);
      }
      var order := orders[o];
      if target == order.status {
        return Success(order);
      }
      if !TransitionAllowed(order.status, target) {
        return Failure(InvalidStatusTransition);
      }
      if target == Cancelled {
        RestoreStock(order.items);
      }
      orders := orders[o := order.(status := target)];
      return Success(orders[o]);
    }
  }

  // ----- Frames and small facts -----

  lemma CheckedIdsExist(plants: map<PlantId, Plant>, lines: seq<Line>)
    requires CheckError(plants, lines) == None
    ensures Ids(lines) <= plants.Keys
  {
  }

  /** Pricing only reads which requested plants exist, which are sellable, and their prices. */
  lemma {:induction false} PricedFrame(a: map<PlantId, Plant>, b: map<PlantId, Plant>, lines: seq<Line>)
    requires forall p :: p in Ids(lines) ==>
                           (p in a <==> p in b) && (Sellable(a, p) <==> Sellable(b, p)) &&
                           UnitPrice(a, p) == UnitPrice(b, p)
    ensures Priced(a, lines) == Priced(b, lines)
  {
    hide Sellable, UnitPrice;
    forall i | 0 <= i < |lines|
      ensures PriceLine(a, lines[i]) == PriceLine(b, lines[i])
      ensures Sellable(a, lines[i].plantId) <==> Sellable(b, lines[i].plantId)
    {
      assert lines[i].plantId in Ids(lines);
    }
    SubtotalFrame(a, b, lines);
    assert PriceLines(a, lines) == PriceLines(b, lines);
  }

  lemma {:induction false} SubtotalFrame(a: map<PlantId, Plant>, b: map<PlantId, Plant>, lines: seq<Line>)
    requires forall i :: 0 <= i < |lines| ==> PriceLine(a, lines[i]) == PriceLine(b, lines[i])
    ensures Subtotal(a, lines) == Subtotal(b, lines)
  {
    if lines != [] {
      SubtotalFrame(a, b, lines[..|lines| - 1]);
    }
  }

  lemma RequestedNothing()
    ensures FirstSeen([]) == [] && Ids([]) == {}
  {
  }

  /** One more line. */
  lemma RequestedSnoc(lines: seq<Line>, line: Line)
    ensures Ids(lines + [line]) == Ids(lines) + {line.plantId}
    ensures forall p :: Requested(lines + [line], p) ==
                        Requested(lines, p) + if line.plantId == p then line.quantity else 0
    ensures FirstSeen(lines + [line]) ==
            FirstSeen(lines) + if line.plantId in Ids(lines) then [] else [line.plantId]
  {
    assert (lines + [line])[..|lines|] == lines;
  }

  /** One more stored line. */
  lemma OrderedSnoc(items: seq<Item>, item: Item)
    ensures ItemIds(items + [item]) == ItemIds(items) + {item.plantId}
    ensures forall p :: Ordered(items + [item], p) ==
                        Ordered(items, p) + if item.plantId == p then item.quantity else 0
  {
    assert (items + [item])[..|items|] == items;
  }

  lemma {:induction false} RequestedOutside(lines: seq<Line>, p: PlantId)
    ensures p !in Ids(lines) ==> Requested(lines, p) == 0
  {
    if lines != [] {
      var init := lines[..|lines| - 1];
      assert lines == init + [lines[|lines| - 1]];
      assert Ids(init) <= Ids(lines);
      RequestedOutside(init, p);
    }
  }

  lemma {:induction false} OrderedOutside(items: seq<Item>, p: PlantId)
    ensures p !in ItemIds(items) ==> Ordered(items, p) == 0
  {
    if items != [] {
      var init := items[..|items| - 1];
      assert items == init + [items[|items| - 1]];
      assert ItemIds(init) <= ItemIds(items);
      OrderedOutside(init, p);
    }
  }

  lemma {:induction false} FirstSeenDistinct(lines: seq<Line>)
    ensures forall i, j :: 0 <= i < j < |FirstSeen(lines)| ==> FirstSeen(lines)[i] != FirstSeen(lines)[j]
  {
    if lines != [] {
      var init := lines[..|lines| - 1];
      FirstSeenDistinct(init);
    }
  }
}
