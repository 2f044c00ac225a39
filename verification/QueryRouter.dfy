/** `get_order` on real state (api/routers/query_router.py), as steps of the cache machine. */
module QueryRouter {
  import opened Cache
  import opened Events
  import opened Postgres
  import opened ReadModel

  /** A reader that is not interrupted. */
  lemma {:induction false} ReadSteps(s: Site, r: nat, oid: Id, stored: Outcome)
    requires r !in s.readers
    ensures var t := Next(Next(Next(Next(s, Ask(r, oid)), LookUp(r)), Query(r)), Store(r, stored));
            var view := ViewOf(s.c.tables, oid);
            if oid in s.c.cache then t == WithReader(s, r, Answered(oid, s.c.cache[oid]))
            else if view.row.None? then t == WithReader(s, r, Reader.NotFound(oid))
            else
              var s' := if stored == Raised then s else s.(c := s.c.(cache := s.c.cache[oid := view]));
              t == WithReader(s', r, if stored == Ok then Answered(oid, view) else Broken(oid))
  {
    if oid in s.c.cache {
      HitSteps(s, r, oid);
      FinishedStays(WithReader(s, r, Answered(oid, s.c.cache[oid])), r, stored);
    } else {
      AskSteps(s, r, oid);
      if oid in s.c.tables.orders {
        QueryStep(s, r, oid);
        StoreStep(s, r, oid, ViewOf(s.c.tables, oid), stored);
      } else {
        NotFoundStep(s, r, oid);
        FinishedStays(WithReader(s, r, Reader.NotFound(oid)), r, stored);
      }
    }
  }

  class Reads {
    const db: Database
    var cache: map<Id, View>

    constructor (db: Database)
      ensures this.db == db && cache == map[]
    {
      this.db, cache := db, map[];
    }

    /** The site with this cache and these tables. */
    ghost function Value(s: Site): Site
      reads this, db
    {
      s.(c := s.c.(tables := db.Contents(), cache := cache))
    }

    /** A read without interruption: the cached view, or else the view of the tables, which is then cached. */
    method GetOrder(oid: Id, stored: Outcome, ghost s: Site, ghost r: nat) returns (answer: Reader)
      requires r !in s.readers
      modifies this`cache
      ensures var t := Next(Next(Next(Next(old(Value(s)), Ask(r, oid)), LookUp(r)), Query(r)), Store(r, stored));
              Value(t) == t && r in t.readers && answer == t.readers[r]
      ensures answer.NotFound? <==> oid !in old(cache) && oid !in db.orders
      ensures oid in old(cache) ==> answer == Answered(oid, old(cache)[oid]) && cache == old(cache)
      ensures oid !in old(cache) && oid in db.orders ==>
              var view := View(Some(db.orders[oid]), ItemsOf(db.items, oid));
              && answer == (if stored == Ok then Answered(oid, view) else Broken(oid))
              && cache == (if stored == Raised then old(cache) else old(cache)[oid := view])
      ensures oid !in old(cache) && oid !in db.orders ==> cache == old(cache)
    {
      ReadSteps(Value(s), r, oid, stored);
      if oid in cache {
        return Answered(oid, cache[oid]);
      }
      if oid !in db.orders {
        return Reader.NotFound(oid);
      }
      var view := View(Some(db.orders[oid]), ItemsOf(db.items, oid));
      if stored != Raised {
        cache := cache[oid := view];
      }
      return if stored == Ok then Answered(oid, view) else Broken(oid);
    }
  }
}
