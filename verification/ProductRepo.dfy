/** The product repository: UPDATE, DELETE of the cached copy, and the cache-aside read. */
module ProductRepo {
  import opened Ints
  import opened Rows
  import opened Identifiers
  import opened ReadThrough

  datatype Product = Product(id: int64, price: int32, stock: int32)

  type Products = map<int64, Product>

  function Stocks(products: Products): Table {
    map id | id in products :: products[id].stock
  }

  ghost predicate SameButStock(before: Products, after: Products) {
    && after.Keys == before.Keys
    && forall id | id in before :: after[id] == before[id].(stock := after[id].stock)
  }

  /** The generated queries over the products table; a faulty call has no effect. */
  class Queries {
    var products: Products

    constructor (products: Products)
      ensures this.products == products
    {
      this.products := products;
    }

    method DeductStock(id: int64, amount: int32, fault: bool) returns (out: Outcome)
      modifies this
      ensures (Stocks(products), out) == Apply(old(Stocks(products)), Deduct(id, amount, fault))
      ensures SameButStock(old(products), products)
      ensures fault ==> out == DbError
      ensures out == Affected(0) <==> !fault && (id !in old(products) || old(products)[id].stock < amount)
      ensures out == Affected(1) <==>
        !fault && id in old(products) && old(products)[id].stock >= amount && FitsInt32(old(products)[id].stock - amount)
      ensures out == Affected(0) || out == Affected(1) || out == DbError
      ensures out != Affected(1) ==> products == old(products)
      ensures out == Affected(1) ==>
        && id in products && products[id].stock as int == old(products)[id].stock - amount
        && products - {id} == old(products) - {id}
    {
      if fault {
        return DbError;
      }
      if id !in products || products[id].stock < amount {
        return Affected(0);
      }
      var stock := products[id].stock - amount;
      if !FitsInt32(stock) {
        return DbError;
      }
      products := products[id := products[id].(stock := stock)];
      assert Stocks(products) == old(Stocks(products))[id := stock];
      out := Affected(1);
    }

    method RestoreStock(id: int64, amount: int32, fault: bool) returns (out: Outcome)
      modifies this
      ensures (Stocks(products), out) == Apply(old(Stocks(products)), Restore(id, amount, fault))
      ensures SameButStock(old(products), products)
      ensures fault ==> out == DbError
      ensures out == Affected(0) <==> !fault && id !in old(products)
      ensures out == Affected(1) <==>
        !fault && id in old(products) && FitsInt32(old(products)[id].stock + amount)
      ensures out == Affected(0) || out == Affected(1) || out == DbError
      ensures out != Affected(1) ==> products == old(products)
      ensures out == Affected(1) ==>
        && id in products && products[id].stock as int == old(products)[id].stock + amount
        && products - {id} == old(products) - {id}
    {
      if fault {
        return DbError;
      }
      if id !in products {
        return Affected(0);
      }
      var stock := products[id].stock + amount;
      if !FitsInt32(stock) {
        return DbError;
      }
      products := products[id := products[id].(stock := stock)];
      assert Stocks(products) == old(Stocks(products))[id := stock];
      out := Affected(1);
    }
  }

  datatype Error = Nil | SoldOut | Internal

  class ProductRepoImpl {
    const q: Queries
    var cache: map<string, Stored<Product>>

    constructor (q: Queries)
      ensures this.q == q && cache == map[]
    {
      this.q := q;
      cache := map[];
    }

    /** A refusal or an error leaves the cached copy; a sale deletes it unless the delete fails. */
    method DeductStock(id: int64, amount: int32, fault: bool, delFault: bool) returns (err: Error)
      modifies this, q
      ensures var (stocks, out) := Apply(old(Stocks(q.products)), Deduct(id, amount, fault));
              && Stocks(q.products) == stocks && SameButStock(old(q.products), q.products)
              && (err == Nil <==> out == Affected(1))
              && (err == SoldOut <==> out == Affected(0))
              && (err == Internal <==> out == DbError)
      ensures fault ==> err == Internal
      ensures err == SoldOut <==> !fault && (id !in old(q.products) || old(q.products)[id].stock < amount)
      ensures err == Nil <==>
        !fault && id in old(q.products) && old(q.products)[id].stock >= amount
        && FitsInt32(old(q.products)[id].stock - amount)
      ensures err != Nil ==> q.products == old(q.products) && cache == old(cache)
      ensures err == Nil ==>
        && id in q.products && q.products[id].stock as int == old(q.products)[id].stock - amount
        && q.products - {id} == old(q.products) - {id}
      ensures cache == if err == Nil && !delFault then old(cache) - {Render(ProductCache(id))} else old(cache)
    {
      var out := q.DeductStock(id, amount, fault);
      if out == DbError {
        return Internal;
      }
      if out.rows == 0 {
        return SoldOut;
      }
      if !delFault {
        cache := cache - {Render(ProductCache(id))};
      }
      err := Nil;
    }

    /** A restore of a missing row succeeds too, and every restore that answers deletes the copy. */
    method RestoreStock(id: int64, amount: int32, fault: bool, delFault: bool) returns (err: Error)
      modifies this, q
      ensures var (stocks, out) := Apply(old(Stocks(q.products)), Restore(id, amount, fault));
              && Stocks(q.products) == stocks && SameButStock(old(q.products), q.products)
              && err == (if out == DbError then Internal else Nil)
      ensures err == Internal <==>
        fault || (id in old(q.products) && !FitsInt32(old(q.products)[id].stock + amount))
      ensures err != Internal <==> err == Nil
      ensures err != Nil || id !in old(q.products) ==> q.products == old(q.products)
      ensures err != Nil ==> cache == old(cache)
      ensures err == Nil && id in old(q.products) ==>
        && id in q.products && q.products[id].stock as int == old(q.products)[id].stock + amount
        && q.products - {id} == old(q.products) - {id}
      ensures cache == if err == Nil && !delFault then old(cache) - {Render(ProductCache(id))} else old(cache)
    {
      var out := q.RestoreStock(id, amount, fault);
      if out == DbError {
        return Internal;
      }
      if !delFault {
        cache := cache - {Render(ProductCache(id))};
      }
      err := Nil;
    }

    /**
     * One undisturbed FindByID: a live copy answers the first lookup, the lookup
     * inside the lock, or the one after a lock that could not be had; otherwise
     * the row answers and becomes the copy, for 10 to 19 minutes. No row, a failed
     * query and a lock that could not be had are told apart.
     */
    method FindByID(id: int64, now: int, io: ReadCalls) returns (fetched: Fetched<Product>)
      modifies this
      ensures var key := Render(ProductCache(id));
              && Visit(KeptAt(cache, key), fetched)
                 == Find(KeptAt(old(cache), key), if id in q.products then Present(q.products[id]) else Missing, now, io)
              && cache - {key} == old(cache) - {key}
      ensures var key := Render(ProductCache(id));
              var hit := (io.lookup || io.again) && key in old(cache) && now <= old(cache)[key].expiry;
              && (hit ==> fetched == Value(old(cache)[key].value))
              && (fetched == NoRow <==> !hit && io.lock && io.query && id !in q.products)
              && (fetched == DbFailure <==> !hit && io.lock && !io.query)
              && (fetched == CacheFailure <==> !hit && !io.lock)
              && (!hit && fetched.Value? ==> id in q.products && fetched == Value(q.products[id]))
              && (hit || !fetched.Value? || !io.fill ==> cache == old(cache))
              && (!hit && fetched.Value? && io.fill ==>
                    && key in cache && cache - {key} == old(cache) - {key} && cache[key].value == fetched.value
                    && cache[key].expiry == now + 600_000 + 60_000 * (io.jitter % 10))
    {
      var key := Render(ProductCache(id));
      if Hit(KeptAt(cache, key), now, io.lookup) {
        return Value(cache[key].value);
      }
      if !io.lock {
        if Hit(KeptAt(cache, key), now, io.again) {
          return Value(cache[key].value);
        }
        return CacheFailure;
      }
      if Hit(KeptAt(cache, key), now, io.again) {
        return Value(cache[key].value);
      }
      if !io.query {
        return DbFailure;
      }
      if id !in q.products {
        return NoRow;
      }
      if io.fill {
        cache := cache[key := Stored(q.products[id], CopyExpiry(now, io.jitter))];
      }
      fetched := Value(q.products[id]);
    }
  }
}
