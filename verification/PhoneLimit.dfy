/** The sliding-window limit on checkouts per canonical phone number. Times are in microseconds. */
module PhoneLimit {
  import opened Wrappers
  import opened TextRules

  const SECOND := 1_000_000
  const WINDOW := 3600 * SECOND
  const LIMIT := 3

  /** An order with the phone of its customer; `storefront` orders have passed the check. */
  datatype Placed = Placed(phone: string, at: int, storefront: bool)

  /** The creation times of the orders of `phone` from `since` on. */
  function Times(log: seq<Placed>, phone: string, since: int): seq<int> {
    if log == [] then []
    else
      var last := log[|log| - 1];
      Times(log[..|log| - 1], phone, since) + if last.phone == phone && last.at >= since then [last.at] else []
  }

  function InsertDescending(t: int, ts: seq<int>): seq<int> {
    if ts == [] || t >= ts[0] then [t] + ts else [ts[0]] + InsertDescending(t, ts[1..])
  }

  /** `ORDER BY created_at DESC`. */
  function Descending(ts: seq<int>): seq<int> {
    if ts == [] then [] else InsertDescending(ts[0], Descending(ts[1..]))
  }

  function CeilSeconds(micros: int): int {
    -((-micros) / SECOND)
  }

  function RetryAfter(oldestCounted: int, now: int): int {
    var seconds := CeilSeconds(oldestCounted + WINDOW - now);
    if seconds > 1 then seconds else 1
  }

  /** `check_checkout_phone_limit`: nothing, or the seconds to wait. */
  function Check(log: seq<Placed>, phone: string, now: int): Option<int> {
    var rows := Descending(Times(log, NormalizeVnPhone(phone), now - WINDOW));
    if |rows| < LIMIT then None else Some(RetryAfter(rows[LIMIT - 1], now))
  }

  // ----- Counting -----

  /** How many of the times are `since` or later. */
  function CountFrom(ts: seq<int>, since: int): nat {
    if ts == [] then 0 else (if ts[0] >= since then 1 else 0) + CountFrom(ts[1..], since)
  }

  /** How many orders of `phone` are `since` or later. */
  function OrdersFrom(log: seq<Placed>, phone: string, since: int): nat {
    if log == [] then 0
    else
      var last := log[|log| - 1];
      OrdersFrom(log[..|log| - 1], phone, since) + if last.phone == phone && last.at >= since then 1 else 0
  }

  predicate IsDescending(ts: seq<int>) {
    forall i, j :: 0 <= i < j < |ts| ==> ts[i] >= ts[j]
  }

  lemma {:induction false} InsertKeeps(t: int, ts: seq<int>, since: int)
    requires IsDescending(ts)
    ensures var r := InsertDescending(t, ts);
            IsDescending(r) && |r| == |ts| + 1 &&
            CountFrom(r, since) == CountFrom(ts, since) + (if t >= since then 1 else 0) &&
            (r[0] == t || (ts != [] && r[0] == ts[0]))
  {
    if ts == [] || t >= ts[0] {
      assert ([t] + ts)[1..] == ts;
    } else {
      InsertKeeps(t, ts[1..], since);
      var rest := InsertDescending(t, ts[1..]);
      assert ([ts[0]] + rest)[1..] == rest;
    }
  }

  lemma {:induction false} DescendingSorts(ts: seq<int>, since: int)
    ensures IsDescending(Descending(ts)) && |Descending(ts)| == |ts|
    ensures CountFrom(Descending(ts), since) == CountFrom(ts, since)
  {
    if ts != [] {
      DescendingSorts(ts[1..], since);
      InsertKeeps(ts[0], Descending(ts[1..]), since);
    }
  }

  lemma {:induction false} CountConcat(a: seq<int>, b: seq<int>, since: int)
    ensures CountFrom(a + b, since) == CountFrom(a, since) + CountFrom(b, since)
  {
    if a == [] {
      assert a + b == b;
    } else {
      CountConcat(a[1..], b, since);
      assert (a + b)[1..] == a[1..] + b;
    }
  }

  /** Inside the window, counting rows is counting orders. */
  lemma {:induction false} TimesCount(log: seq<Placed>, phone: string, since: int, later: int)
    requires since <= later
    ensures CountFrom(Times(log, phone, since), later) == OrdersFrom(log, phone, later)
    ensures |Times(log, phone, since)| == OrdersFrom(log, phone, since)
  {
    if log != [] {
      var init, last := log[..|log| - 1], log[|log| - 1];
      TimesCount(init, phone, since, later);
      var tail := if last.phone == phone && last.at >= since then [last.at] else [];
      CountConcat(Times(init, phone, since), tail, later);
      if tail != [] {
        assert tail[1..] == [];
      }
    }
  }

  /** In a descending list, at most `k` entries exceed the one at `k`, and at least `k + 1` reach it. */
  lemma {:induction false} RankOf(ts: seq<int>, k: nat)
    requires IsDescending(ts) && k < |ts|
    ensures CountFrom(ts, ts[k]) >= k + 1
    ensures CountFrom(ts, ts[k] + 1) <= k
  {
    if k == 0 {
      NoneFrom(ts, ts[0] + 1);
    } else {
      RankOf(ts[1..], k - 1);
    }
  }

  lemma {:induction false} NoneFrom(ts: seq<int>, since: int)
    requires forall t :: t in ts ==> t < since
    ensures CountFrom(ts, since) == 0
  {
    if ts != [] {
      assert ts[0] in ts && forall t :: t in ts[1..] ==> t in ts;
      NoneFrom(ts[1..], since);
    }
  }

  lemma {:induction false} OrdersMonotone(log: seq<Placed>, phone: string, since: int, later: int)
    requires since <= later
    ensures OrdersFrom(log, phone, later) <= OrdersFrom(log, phone, since)
  {
    if log != [] {
      OrdersMonotone(log[..|log| - 1], phone, since, later);
    }
  }

  lemma {:induction false} OrdersGrow(log: seq<Placed>, more: seq<Placed>, phone: string, since: int)
    ensures OrdersFrom(log, phone, since) <= OrdersFrom(log + more, phone, since)
  {
    if more == [] {
      assert log + more == log;
    } else {
      OrdersGrow(log, more[..|more| - 1], phone, since);
      assert (log + more)[..|log + more| - 1] == log + more[..|more| - 1];
    }
  }

  // ----- What the check decides -----

  /** The check refuses exactly when three orders of the canonical phone lie in the closed window. */
  lemma {:induction false} RefusedExactly(log: seq<Placed>, phone: string, now: int)
    ensures Check(log, phone, now).Some? <==> OrdersFrom(log, NormalizeVnPhone(phone), now - WINDOW) >= LIMIT
  {
    hide NormalizeVnPhone;
    TimesCount(log, NormalizeVnPhone(phone), now - WINDOW, now - WINDOW);
    DescendingSorts(Times(log, NormalizeVnPhone(phone), now - WINDOW), 0);
  }

  /** The order the refusal counts from: the third newest of the phone. */
  function OldestCounted(log: seq<Placed>, phone: string, now: int): int
    requires Check(log, phone, now).Some?
  {
    Descending(Times(log, NormalizeVnPhone(phone), now - WINDOW))[LIMIT - 1]
  }

  lemma {:induction false} OldestCountedRank(log: seq<Placed>, phone: string, now: int)
    requires Check(log, phone, now).Some?
    ensures var x, p := OldestCounted(log, phone, now), NormalizeVnPhone(phone);
            now - WINDOW <= x && OrdersFrom(log, p, x) >= LIMIT && OrdersFrom(log, p, x + 1) < LIMIT
  {
    hide NormalizeVnPhone, Descending;
    var p := NormalizeVnPhone(phone);
    var ts := Times(log, p, now - WINDOW);
    var x := OldestCounted(log, phone, now);
    DescendingSorts(ts, x);
    DescendingSorts(ts, x + 1);
    DescendingSorts(ts, now - WINDOW);
    RankOf(Descending(ts), LIMIT - 1);
    TimesCount(log, p, now - WINDOW, now - WINDOW);
    if x < now - WINDOW {
      RankBelow(Descending(ts), LIMIT - 1, now - WINDOW);
    } else {
      TimesCount(log, p, now - WINDOW, x);
      TimesCount(log, p, now - WINDOW, x + 1);
    }
  }

  lemma {:induction false} RankBelow(ts: seq<int>, k: nat, since: int)
    requires IsDescending(ts) && k < |ts| && ts[k] < since
    ensures CountFrom(ts, since) <= k < |ts|
  {
    if k == 0 {
      NoneFrom(ts, since);
    } else {
      RankBelow(ts[1..], k - 1, since);
    }
  }

  /** After a refusal: refused until the counted order is an hour old, whatever else is placed, then accepted. */
  lemma {:induction false} RefusalLasts(log: seq<Placed>, phone: string, now: int, more: seq<Placed>, later: int)
    requires Check(log, phone, now).Some? && now <= later
    ensures var free := OldestCounted(log, phone, now) + WINDOW;
            (later <= free ==> Check(log + more, phone, later).Some?) &&
            (later > free && more == [] ==> Check(log + more, phone, later).None?)
  {
    hide NormalizeVnPhone, Check, OldestCounted;
    var x, p := OldestCounted(log, phone, now), NormalizeVnPhone(phone);
    OldestCountedRank(log, phone, now);
    RefusedExactly(log + more, phone, later);
    if later <= x + WINDOW {
      OrdersMonotone(log, p, later - WINDOW, x);
      OrdersGrow(log, more, p, later - WINDOW);
    } else if more == [] {
      assert log + more == log;
      OrdersMonotone(log, p, x + 1, later - WINDOW);
    }
  }

  lemma CeilMeaning(micros: int)
    ensures (CeilSeconds(micros) - 1) * SECOND < micros <= CeilSeconds(micros) * SECOND
    ensures micros == CeilSeconds(micros) * SECOND <==> micros % SECOND == 0
  {
  }

  /** Waiting exactly the stated seconds is enough, except when a positive whole number of seconds was left. */
  lemma {:induction false} WaitingAsTold(log: seq<Placed>, phone: string, now: int)
    requires Check(log, phone, now).Some?
    requires forall i :: 0 <= i < |log| ==> log[i].at <= now
    ensures var retry := Check(log, phone, now).value;
            var left := OldestCounted(log, phone, now) + WINDOW - now;
            1 <= retry <= 3600 && 0 <= left &&
            (Check(log, phone, now + retry * SECOND).None? <==> left == 0 || left % SECOND != 0)
  {
    hide NormalizeVnPhone, Descending;
    var x, retry := OldestCounted(log, phone, now), Check(log, phone, now).value;
    var left := x + WINDOW - now;
    OldestCountedRank(log, phone, now);
    if x > now {
      NoneAfter(log, NormalizeVnPhone(phone), x);
    }
    CeilMeaning(left);
    assert log + [] == log;
    RefusalLasts(log, phone, now, [], now + retry * SECOND);
  }

  lemma {:induction false} NoneAfter(log: seq<Placed>, phone: string, since: int)
    requires forall i :: 0 <= i < |log| ==> log[i].at < since
    ensures OrdersFrom(log, phone, since) == 0
  {
    if log != [] {
      NoneAfter(log[..|log| - 1], phone, since);
    }
  }

  // ----- Serial runs -----

  /** A storefront attempt, checked first, or an order entered by an admin with the phone as typed. */
  datatype Event = Attempt(phone: string, at: int) | AdminOrder(phone: string, at: int)

  /** The order carries the database time of the transaction the check ran in. */
  function Step(log: seq<Placed>, e: Event): seq<Placed> {
    match e
    case Attempt(phone, at) =>
      if Check(log, phone, at).Some? then log else log + [Placed(NormalizeVnPhone(phone), at, true)]
    case AdminOrder(phone, at) => log + [Placed(phone, at, false)]
  }

  function Run(es: seq<Event>): seq<Placed> {
    if es == [] then [] else Step(Run(es[..|es| - 1]), es[|es| - 1])
  }

  predicate ClockMoves(es: seq<Event>) {
    forall i, j :: 0 <= i < j < |es| ==> es[i].at <= es[j].at
  }

  /** Creation times ascend, and each storefront order found at most two in its window. */
  ghost predicate LogOk(log: seq<Placed>) {
    && (forall i, j :: 0 <= i < j < |log| ==> log[i].at <= log[j].at)
    && (forall k :: 0 <= k < |log| && log[k].storefront ==>
                      OrdersFrom(log[..k], log[k].phone, log[k].at - WINDOW) < LIMIT)
  }

  lemma {:induction false} StepKeepsLog(log: seq<Placed>, e: Event)
    requires LogOk(log) && forall i :: 0 <= i < |log| ==> log[i].at <= e.at
    ensures LogOk(Step(log, e))
    ensures forall i :: 0 <= i < |Step(log, e)| ==> Step(log, e)[i].at <= e.at
  {
    hide Check, NormalizeVnPhone, OrdersFrom;
    var log1 := Step(log, e);
    if e.Attempt? {
      RefusedExactly(log, e.phone, e.at);
    }
    forall k | 0 <= k < |log1| && log1[k].storefront
      ensures OrdersFrom(log1[..k], log1[k].phone, log1[k].at - WINDOW) < LIMIT
    {
      assert log1[..k] == if k < |log| then log[..k] else log;
    }
  }

  lemma {:induction false} RunKeepsLog(es: seq<Event>)
    requires ClockMoves(es)
    ensures LogOk(Run(es))
    ensures es != [] ==> forall i :: 0 <= i < |Run(es)| ==> Run(es)[i].at <= es[|es| - 1].at
    ensures es == [] ==> Run(es) == []
  {
    hide Step, LogOk;
    if es == [] {
      EmptyLogOk();
    } else {
      var before, e := es[..|es| - 1], es[|es| - 1];
      RunKeepsLog(before);
      StepKeepsLog(Run(before), e);
    }
  }

  lemma EmptyLogOk()
    ensures LogOk([])
  {
  }

  lemma {:induction false} ThreeCounted(log: seq<Placed>, phone: string, since: int, i: nat, j: nat, k: nat)
    requires i < j < k < |log|
    requires log[i].phone == log[j].phone == log[k].phone == phone
    requires log[i].at >= since && log[j].at >= since && log[k].at >= since
    ensures OrdersFrom(log, phone, since) >= 3
  {
    if k == |log| - 1 {
      TwoCounted(log[..k], phone, since, i, j);
    } else {
      ThreeCounted(log[..|log| - 1], phone, since, i, j, k);
    }
  }

  lemma {:induction false} TwoCounted(log: seq<Placed>, phone: string, since: int, i: nat, j: nat)
    requires i < j < |log|
    requires log[i].phone == log[j].phone == phone && log[i].at >= since && log[j].at >= since
    ensures OrdersFrom(log, phone, since) >= 2
  {
    if j == |log| - 1 {
      OneCounted(log[..j], phone, since, i);
    } else {
      TwoCounted(log[..|log| - 1], phone, since, i, j);
    }
  }

  lemma {:induction false} OneCounted(log: seq<Placed>, phone: string, since: int, i: nat)
    requires i < |log| && log[i].phone == phone && log[i].at >= since
    ensures OrdersFrom(log, phone, since) >= 1
  {
    if i < |log| - 1 {
      OneCounted(log[..|log| - 1], phone, since, i);
    }
  }

  /** A storefront order and any three earlier orders of its phone span strictly more than an hour. */
  lemma {:induction false} FourOrdersSpanMoreThanAnHour(es: seq<Event>, i: nat, j: nat, k: nat, l: nat)
    requires ClockMoves(es)
    requires i < j < k < l < |Run(es)|
    requires Run(es)[i].phone == Run(es)[j].phone == Run(es)[k].phone == Run(es)[l].phone
    requires Run(es)[l].storefront
    ensures Run(es)[l].at - Run(es)[i].at > WINDOW
  {
    hide Run, OrdersFrom;
    RunKeepsLog(es);
    var log := Run(es);
    if log[i].at >= log[l].at - WINDOW {
      ThreeCounted(log[..l], log[l].phone, log[l].at - WINDOW, i, j, k);
    }
  }
}
