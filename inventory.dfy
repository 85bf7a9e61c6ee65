/** The inventory ledger: stock quantities keyed by (product, warehouse),
    with add, remove, level query and transfer. The functions below give the
    meaning of each operation on a value of the store; the class
    InventoryService performs them step by step on its repository and is
    proved to agree with them. */
module Inventory {
  import opened Errors
  import opened Store

  /** (product identifier, warehouse identifier) */
  type Key = (string, string)

  /** The inventory repository: one record per stocked pair. */
  type Stock = map<Key, int>

  /** The repository after an operation, and how the operation completed. */
  datatype Effect = Effect(stock: Stock, outcome: Outcome)

  predicate NonNegative(s: Stock)
  {
    forall k | k in s :: s[k] >= 0
  }

  /** Quantity held for a pair, counting a pair with no record as 0. */
  function Held(s: Stock, p: string, w: string): int
  {
    match Find(s, (p, w))
    case Some(q) => q
    case None => 0
  }

  /** Every pair other than `key` keeps its record, or its absence. */
  predicate Untouched(s: Stock, t: Stock, key: Key)
  {
    && t.Keys - {key} == s.Keys - {key}
    && forall k | k in s && k != key :: k in t && t[k] == s[k]
  }

  /** `validateProductAndWarehouseIdentifiers` */
  function ValidateIdentifiers(p: string, w: string): (r: Outcome)
    ensures r.Done? <==> !Blank(p) && !Blank(w)
    ensures r.Failed? ==> r.error == InvalidArgument
  {
    if Blank(p) then Failed(InvalidArgument)
    else if Blank(w) then Failed(InvalidArgument)
    else Done
  }

  /** `validatePositiveQuantity` */
  function ValidatePositiveQuantity(n: int): (r: Outcome)
    ensures r.Done? <==> n > 0
    ensures r.Failed? ==> r.error == InvalidQuantity
  {
    if n <= 0 then Failed(InvalidQuantity) else Done
  }

  /** `addStockToWarehouse`: creates the record with `n`, or raises it by `n`. */
  function Add(s: Stock, p: string, w: string, n: int): (r: Effect)
    ensures r.outcome.Failed? ==> r.stock == s
    ensures r.outcome == Failed(InvalidArgument) <==> Blank(p) || Blank(w)
    ensures r.outcome == Failed(InvalidQuantity) <==> !Blank(p) && !Blank(w) && n <= 0
    ensures r.outcome.Done? <==> !Blank(p) && !Blank(w) && n > 0
    ensures r.outcome.Done? ==>
      && (p, w) in r.stock
      && ((p, w) !in s ==> r.stock[(p, w)] == n)
      && ((p, w) in s ==> r.stock[(p, w)] == s[(p, w)] + n)
      && Untouched(s, r.stock, (p, w))
    ensures NonNegative(s) ==> NonNegative(r.stock)
  {
    var checked := ValidateIdentifiers(p, w);
    if checked.Failed? then Effect(s, checked)
    else
      var positive := ValidatePositiveQuantity(n);
      if positive.Failed? then Effect(s, positive)
      else Effect(Save(s, (p, w), Held(s, p, w) + n), Done)
  }

  /** `removeStockFromWarehouse`: lowers an existing record by `n`, never below 0. */
  function Remove(s: Stock, p: string, w: string, n: int): (r: Effect)
    ensures r.outcome.Failed? ==> r.stock == s
    ensures r.outcome == Failed(InvalidArgument) <==> Blank(p) || Blank(w)
    ensures r.outcome == Failed(InvalidQuantity) <==> !Blank(p) && !Blank(w) && n <= 0
    ensures r.outcome == Failed(NotFound(InventoryRecord)) <==>
      !Blank(p) && !Blank(w) && n > 0 && (p, w) !in s
    ensures r.outcome == Failed(InsufficientStock) <==>
      !Blank(p) && !Blank(w) && n > 0 && (p, w) in s && s[(p, w)] < n
    ensures r.outcome.Done? ==>
      && (p, w) in s && (p, w) in r.stock
      && r.stock[(p, w)] == s[(p, w)] - n >= 0
      && r.stock.Keys == s.Keys
      && Untouched(s, r.stock, (p, w))
    ensures NonNegative(s) ==> NonNegative(r.stock)
  {
    var checked := ValidateIdentifiers(p, w);
    if checked.Failed? then Effect(s, checked)
    else
      var positive := ValidatePositiveQuantity(n);
      if positive.Failed? then Effect(s, positive)
      else
        match Find(s, (p, w))
        case None => Effect(s, Failed(NotFound(InventoryRecord)))
        case Some(current) =>
          if current < n then Effect(s, Failed(InsufficientStock))
          else Effect(Save(s, (p, w), current - n), Done)
  }

  /** `transferStockBetweenWarehouses`, as written: the two warehouses must
      differ; the removal runs first and the addition only after it succeeded.
      The destination identifier is checked only by the addition, so a blank
      destination fails after the source has already been lowered. */
  function Transfer(s: Stock, p: string, src: string, dst: string, n: int): (r: Effect)
    ensures src == dst ==> r == Effect(s, Failed(InvalidArgument))
    ensures src != dst && Remove(s, p, src, n).outcome.Failed? ==>
      r == Effect(s, Remove(s, p, src, n).outcome)
    ensures r.outcome.Done? <==> src != dst && Remove(s, p, src, n).outcome.Done? && !Blank(dst)
    ensures r.outcome.Done? ==>
      && Held(r.stock, p, src) == Held(s, p, src) - n
      && Held(r.stock, p, dst) == Held(s, p, dst) + n
      && Held(r.stock, p, src) + Held(r.stock, p, dst) == Held(s, p, src) + Held(s, p, dst)
      && r.stock.Keys == s.Keys + {(p, dst)}
      && forall k | k in s && k != (p, src) && k != (p, dst) :: r.stock[k] == s[k]
    ensures r.outcome.Failed? && r.stock != s ==>
      && src != dst && Blank(dst)
      && r.outcome == Failed(InvalidArgument)
      && r.stock == Remove(s, p, src, n).stock
    ensures NonNegative(s) ==> NonNegative(r.stock)
  {
    if src == dst then Effect(s, Failed(InvalidArgument))
    else
      var removed := Remove(s, p, src, n);
      if removed.outcome.Failed? then removed
      else Add(removed.stock, p, dst, n)
  }

  /** The partial failure of Transfer: with enough stock at the source and a
      blank destination, the call reports InvalidArgument, yet the source has
      lost `n` units and no warehouse received them. */
  lemma TransferBlankDestinationLosesStock(s: Stock, p: string, src: string, dst: string, n: int)
    requires !Blank(p) && !Blank(src) && Blank(dst) && src != dst
    requires n > 0 && (p, src) in s && s[(p, src)] >= n
    ensures Transfer(s, p, src, dst, n).outcome == Failed(InvalidArgument)
    ensures Held(Transfer(s, p, src, dst, n).stock, p, src) == Held(s, p, src) - n
    ensures Held(Transfer(s, p, src, dst, n).stock, p, dst) == Held(s, p, dst)
  {
    var removed := Remove(s, p, src, n);
    assert removed.outcome.Done?;
    assert Held(removed.stock, p, dst) == Held(s, p, dst);
  }

  /** Transfer with the destination checked before anything is removed: the
      atomic behaviour the comment on the transfer promises. */
  function TransferValidated(s: Stock, p: string, src: string, dst: string, n: int): (r: Effect)
    ensures r.outcome.Failed? ==> r.stock == s
    ensures r.outcome.Done? <==> Transfer(s, p, src, dst, n).outcome.Done?
    ensures r.outcome.Done? ==> r.stock == Transfer(s, p, src, dst, n).stock
    ensures !Blank(dst) ==> r == Transfer(s, p, src, dst, n)
  {
    if src == dst then Effect(s, Failed(InvalidArgument))
    else
      var checked := ValidateIdentifiers(p, dst);
      if checked.Failed? then Effect(s, checked)
      else
        var removed := Remove(s, p, src, n);
        if removed.outcome.Failed? then removed
        else Add(removed.stock, p, dst, n)
  }

  // The Java sum at line 43 of the add is a 32-bit `int` addition.

  const IntMin: int := -0x8000_0000
  const IntMax: int := 0x7fff_ffff

  /** Two's-complement wrap-around of a Java `int` result. */
  function WrapInt(x: int): (r: int)
    ensures IntMin <= r <= IntMax
    ensures IntMin <= x <= IntMax ==> r == x
    ensures (r - x) % 0x1_0000_0000 == 0
  {
    (x - IntMin) % 0x1_0000_0000 + IntMin
  }

  /** `addStockToWarehouse` with the stored sum wrapped as Java's `int` does. */
  function AddInt32(s: Stock, p: string, w: string, n: int): (r: Effect)
    ensures IntMin <= Held(s, p, w) + n <= IntMax ==> r == Add(s, p, w, n)
    ensures r.outcome == Add(s, p, w, n).outcome
  {
    var checked := ValidateIdentifiers(p, w);
    if checked.Failed? then Effect(s, checked)
    else
      var positive := ValidatePositiveQuantity(n);
      if positive.Failed? then Effect(s, positive)
      else Effect(Save(s, (p, w), WrapInt(Held(s, p, w) + n)), Done)
  }

  /** An addition whose sum passes Integer.MAX_VALUE still succeeds, and
      stores the sum less 2^32: a negative quantity. */
  lemma AddInt32GoesNegative(s: Stock, p: string, w: string, n: int)
    requires NonNegative(s) && !Blank(p) && !Blank(w)
    requires (p, w) in s && s[(p, w)] <= IntMax
    requires 0 < n <= IntMax && s[(p, w)] + n > IntMax
    ensures AddInt32(s, p, w, n).outcome == Done
    ensures AddInt32(s, p, w, n).stock[(p, w)] == s[(p, w)] + n - 0x1_0000_0000 < 0
  {
    assert WrapInt(s[(p, w)] + n) == s[(p, w)] + n - 0x1_0000_0000;
  }

  /** A stock movement on one pair, as a sequence of calls sees it. */
  datatype Movement = Receive(amount: int) | Issue(amount: int)

  function Apply(s: Stock, p: string, w: string, m: Movement): Effect
  {
    match m
    case Receive(n) => Add(s, p, w, n)
    case Issue(n) => Remove(s, p, w, n)
  }

  /** Performs the movements in order; returns the final repository and the
      outcome of each call. */
  function Run(s: Stock, p: string, w: string, ms: seq<Movement>): (r: (Stock, seq<Outcome>))
    ensures |r.1| == |ms|
    decreases |ms|
  {
    if ms == [] then (s, [])
    else
      var first := Apply(s, p, w, ms[0]);
      var rest := Run(first.stock, p, w, ms[1..]);
      (rest.0, [first.outcome] + rest.1)
  }

  /** Units received minus units issued, over the calls that succeeded. */
  function Net(ms: seq<Movement>, outs: seq<Outcome>): int
    requires |outs| == |ms|
  {
    if ms == [] then 0
    else
      var here := if outs[0].Failed? then 0
                  else match ms[0] case Receive(n) => n case Issue(n) => -n;
      here + Net(ms[1..], outs[1..])
  }

  /** After any sequence of adds and removes on a pair, its quantity is the
      starting quantity plus what the successful adds brought minus what the
      successful removes took, it is never negative, and no other pair moved. */
  lemma {:induction false} RunBalances(s: Stock, p: string, w: string, ms: seq<Movement>)
    requires NonNegative(s)
    ensures Held(Run(s, p, w, ms).0, p, w) == Held(s, p, w) + Net(ms, Run(s, p, w, ms).1)
    ensures NonNegative(Run(s, p, w, ms).0)
    ensures Untouched(s, Run(s, p, w, ms).0, (p, w))
    decreases |ms|
  {
    if ms != [] {
      var first := Apply(s, p, w, ms[0]);
      RunBalances(first.stock, p, w, ms[1..]);
      var rest := Run(first.stock, p, w, ms[1..]);
      assert Run(s, p, w, ms) == (rest.0, [first.outcome] + rest.1);
      assert ([first.outcome] + rest.1)[1..] == rest.1;
    }
  }

  /** The ledger. Its repository field holds one quantity per stocked pair. */
  class InventoryService {
    var items: Stock

    ghost predicate Valid()
      reads this
    {
      NonNegative(items)
    }

    /** A ledger over an empty repository. */
    constructor ()
      ensures Valid() && items == map[]
    {
      items := map[];
    }

    method AddStockToWarehouse(p: string, w: string, n: int) returns (out: Outcome)
      requires Valid()
      modifies this
      ensures Valid()
      ensures Effect(items, out) == Add(old(items), p, w, n)
    {
      out := ValidateIdentifiers(p, w);
      if out.Failed? { return; }
      out := ValidatePositiveQuantity(n);
      if out.Failed? { return; }
      var existing := Find(items, (p, w));
      var quantity := if existing.Some? then existing.value else 0;
      items := Save(items, (p, w), quantity + n);
      out := Done;
    }

    method RemoveStockFromWarehouse(p: string, w: string, n: int) returns (out: Outcome)
      requires Valid()
      modifies this
      ensures Valid()
      ensures Effect(items, out) == Remove(old(items), p, w, n)
    {
      out := ValidateIdentifiers(p, w);
      if out.Failed? { return; }
      out := ValidatePositiveQuantity(n);
      if out.Failed? { return; }
      var existing := Find(items, (p, w));
      if existing.None? {
        return Failed(NotFound(InventoryRecord));
      }
      var current := existing.value;
      if current < n {
        return Failed(InsufficientStock);
      }
      items := Save(items, (p, w), current - n);
      out := Done;
    }

    /** `getCurrentStockLevel`: reads only. */
    method GetCurrentStockLevel(p: string, w: string) returns (r: Result<int>)
      requires Valid()
      ensures r.Err? <==> Blank(p) || Blank(w)
      ensures r.Err? ==> r.error == InvalidArgument
      ensures r.Ok? && (p, w) in items ==> r.value == items[(p, w)]
      ensures r.Ok? && (p, w) !in items ==> r.value == 0
      ensures r.Ok? ==> r.value >= 0
    {
      var checked := ValidateIdentifiers(p, w);
      if checked.Failed? { return Err(checked.error); }
      var existing := Find(items, (p, w));
      r := Ok(if existing.Some? then existing.value else 0);
    }

    method TransferStockBetweenWarehouses(p: string, src: string, dst: string, n: int)
      returns (out: Outcome)
      requires Valid()
      modifies this
      ensures Valid()
      ensures Effect(items, out) == Transfer(old(items), p, src, dst, n)
    {
      if src == dst {
        return Failed(InvalidArgument);
      }
      out := RemoveStockFromWarehouse(p, src, n);
      if out.Failed? { return; }
      out := AddStockToWarehouse(p, dst, n);
    }
  }
}
