/** The user repository, and why its two-statement DeductBalance is still atomic. */
module UserRepo {
  import opened Ints
  import opened Rows
  import opened Identifiers
  import opened ReadThrough

  const OPENING_BALANCE: int32 := 1000

  /** One atomic statement of anybody else on the users table. */
  datatype UserOp = Balance(op: Op) | Register(id: int64)

  function ApplyUser(t: Table, op: UserOp): Table {
    match op
    case Balance(o) => Apply(t, o).0
    case Register(id) => if id in t then t else t[id := OPENING_BALANCE]
  }

  function Others(t: Table, ops: seq<UserOp>): Table
    decreases |ops|
  {
    if ops == [] then t else Others(ApplyUser(t, ops[0]), ops[1..])
  }

  datatype Error = Nil | UserNotFound | LowBalance | Internal

  /** The deduction as one indivisible step. */
  function Atomic(t: Table, id: int64, amount: int32): (Table, Error) {
    if id !in t then (t, UserNotFound)
    else if t[id] < amount then (t, LowBalance)
    else if !FitsInt32(t[id] - amount) then (t, Internal)
    else (t[id := t[id] - amount], Nil)
  }

  // ---------------------------------------------------------------- linearizability

  lemma {:induction false} NobodyLeaves(t: Table, ops: seq<UserOp>)
    ensures t.Keys <= Others(t, ops).Keys
    decreases |ops|
  {
    if ops != [] {
      NobodyLeaves(ApplyUser(t, ops[0]), ops[1..]);
    }
  }

  /** A registration adds a row with the opening balance and touches no other. */
  lemma RegisterAdds(t: Table, id: int64)
    ensures var t' := ApplyUser(t, Register(id));
            && t'.Keys == t.Keys + {id}
            && (forall k | k in t :: t'[k] == t[k])
            && (id !in t ==> t'[id] == 1000)
  {
  }

  /** What the call reports when others run `ops` between its UPDATE on `t` and its SELECT. */
  function Reported(t: Table, id: int64, amount: int32, ops: seq<UserOp>): Error {
    match DeductRow(t, id, amount).1
    case DbError => Internal
    case Affected(n) =>
      if n > 0 then Nil
      else if id in Others(t, ops) then LowBalance
      else UserNotFound
  }

  /**
   * Some instant of the call explains its report: the atomic deduction, run at
   * that instant, reports the same and, unless that is the UPDATE itself, would
   * have changed nothing either.
   */
  ghost predicate Linearizable(t: Table, id: int64, amount: int32, ops: seq<UserOp>) {
    exists k :: 0 <= k <= |ops| && ExplainedAt(t, id, amount, ops, k)
  }

  ghost predicate ExplainedAt(t: Table, id: int64, amount: int32, ops: seq<UserOp>, k: nat)
    requires k <= |ops|
  {
    var at := Others(t, ops[..k]);
    var (after, err) := Atomic(at, id, amount);
    && err == Reported(t, id, amount, ops)
    && (if k == 0 then after == DeductRow(t, id, amount).0 else after == at && DeductRow(t, id, amount).0 == t)
  }

  /** For a user registered before the call, the instant of the UPDATE explains every outcome. */
  lemma RegisteredIsLinearizable(t: Table, id: int64, amount: int32, ops: seq<UserOp>)
    requires id in t
    ensures Linearizable(t, id, amount, ops)
    ensures Reported(t, id, amount, ops) == Atomic(t, id, amount).1
  {
    NobodyLeaves(t, ops);
    assert ops[..0] == [];
    assert ExplainedAt(t, id, amount, ops, 0);
  }

  /**
   * In general the report is explained exactly when the user was registered at
   * the UPDATE, or is still unknown at the SELECT, or held less than the amount
   * at some instant in between.
   */
  lemma LinearizableIff(t: Table, id: int64, amount: int32, ops: seq<UserOp>)
    ensures Linearizable(t, id, amount, ops) <==>
      || id in t
      || id !in Others(t, ops)
      || exists k :: 0 <= k <= |ops| && HoldsLess(t, id, amount, ops, k)
  {
    if id in t {
      RegisteredIsLinearizable(t, id, amount, ops);
    } else if id !in Others(t, ops) {
      assert ops[..0] == [];
      assert ExplainedAt(t, id, amount, ops, 0);
    } else {
      forall k | 0 <= k <= |ops|
        ensures ExplainedAt(t, id, amount, ops, k) <==> HoldsLess(t, id, amount, ops, k)
      {
        assert ops[..0] == [];
      }
    }
  }

  ghost predicate HoldsLess(t: Table, id: int64, amount: int32, ops: seq<UserOp>, k: nat)
    requires k <= |ops|
  {
    var at := Others(t, ops[..k]);
    id in at && at[id] < amount
  }

  /** It can fail: a user registered between the two statements is told the balance is too low. */
  lemma NewcomerIsMisjudged(id: int64)
    ensures var ops := [Register(id)];
            && Reported(map[], id, 1, ops) == LowBalance
            && Others(map[], ops)[id] == 1000
            && !Linearizable(map[], id, 1, ops)
  {
    var ops := [Register(id)];
    var t: Table := map[];
    assert Others(t, ops) == t[id := OPENING_BALANCE] by {
      assert ops[1..] == [];
    }
    assert ops[..0] == [] && ops[..1] == ops;
    forall k | 0 <= k <= |ops| ensures !HoldsLess(t, id, 1, ops, k) {
    }
    LinearizableIff(t, id, 1, ops);
  }

  // ------------------------------------------------------------------ the repository

  class UserRepoImpl {
    var users: Table
    var cache: map<string, Stored<int32>>

    constructor (users: Table)
      ensures this.users == users && cache == map[]
    {
      this.users := users;
      cache := map[];
    }

    /**
     * `others` is what other callers do between the two statements. The outcome
     * is the atomic one for every user registered before the call, unless the
     * database fails.
     */
    method DeductBalance(id: int64, amount: int32, others: seq<UserOp>, fault: bool, queryFault: bool, delFault: bool)
      returns (err: Error)
      modifies this
      ensures var missed := DeductRow(old(users), id, amount).1 == Affected(0);
              && err == (if fault || (missed && queryFault) then Internal
                         else Reported(old(users), id, amount, others))
              && users == (if fault then old(users)
                           else if missed then Others(old(users), others)
                           else Atomic(old(users), id, amount).0)
      ensures id in old(users) && err != Internal ==> err == Atomic(old(users), id, amount).1
      ensures fault ==> err == Internal
      ensures !fault && !queryFault ==>
        && (err == LowBalance <== id in old(users) && old(users)[id] < amount)
        && (err == UserNotFound <==> id !in old(users) && id !in Others(old(users), others))
      ensures err == Nil <==>
        !fault && id in old(users) && old(users)[id] >= amount && FitsInt32(old(users)[id] - amount)
      ensures err == Nil ==>
        && id in users && users[id] as int == old(users)[id] - amount && users - {id} == old(users) - {id}
      ensures cache == if err == Nil && !delFault then old(cache) - {Render(UserCache(id))} else old(cache)
    {
      if fault {
        return Internal;
      }
      var out;
      users, out := DeductRow(users, id, amount).0, DeductRow(users, id, amount).1;
      if out == DbError {
        return Internal;
      }
      if out.rows == 0 {
        NobodyLeaves(users, others);
        users := Others(users, others);
        if queryFault {
          return Internal;
        }
        if id !in users {
          return UserNotFound;
        }
        return LowBalance;
      }
      if !delFault {
        cache := cache - {Render(UserCache(id))};
      }
      err := Nil;
    }

    method RestoreBalance(id: int64, amount: int32, fault: bool, delFault: bool) returns (err: Error)
      modifies this
      ensures var (t, out) := Apply(old(users), Restore(id, amount, fault));
              users == t && err == (if out == DbError then Internal else Nil)
      ensures err == Internal <==> fault || (id in old(users) && !FitsInt32(old(users)[id] + amount))
      ensures err != Nil || id !in old(users) ==> users == old(users)
      ensures err == Nil && id in old(users) ==>
        && id in users && users[id] as int == old(users)[id] + amount && users - {id} == old(users) - {id}
      ensures cache == if err == Nil && !delFault then old(cache) - {Render(UserCache(id))} else old(cache)
    {
      if fault {
        return Internal;
      }
      var out;
      users, out := RestoreRow(users, id, amount).0, RestoreRow(users, id, amount).1;
      if out == DbError {
        return Internal;
      }
      if !delFault {
        cache := cache - {Render(UserCache(id))};
      }
      err := Nil;
    }

    /** The user's read has the product's shape; what it keeps of the row is the balance. */
    method FindByID(id: int64, now: int, io: ReadCalls) returns (fetched: Fetched<int32>)
      modifies this`cache
      ensures var key := Render(UserCache(id));
              && Visit(KeptAt(cache, key), fetched)
                 == Find(KeptAt(old(cache), key), if id in users then Present(users[id]) else Missing, now, io)
              && cache - {key} == old(cache) - {key}
      ensures var key := Render(UserCache(id));
              var hit := (io.lookup || io.again) && key in old(cache) && now <= old(cache)[key].expiry;
              && (hit ==> fetched == Value(old(cache)[key].value))
              && (fetched == NoRow <==> !hit && io.lock && io.query && id !in users)
              && (fetched == DbFailure <==> !hit && io.lock && !io.query)
              && (fetched == CacheFailure <==> !hit && !io.lock)
              && (!hit && fetched.Value? ==> id in users && fetched == Value(users[id]))
              && (hit || !fetched.Value? || !io.fill ==> cache == old(cache))
              && (!hit && fetched.Value? && io.fill ==>
                    && key in cache && cache - {key} == old(cache) - {key} && cache[key].value == fetched.value
                    && cache[key].expiry == now + 600_000 + 60_000 * (io.jitter % 10))
    {
      var key := Render(UserCache(id));
      if Hit(KeptAt(cache, key), now, io.lookup) {
        return Value(cache[key].value);
      }
      if !io.lock {
        if Hit(KeptAt(cache, key), now, io.again) {
          return Value(cache[key].value);
        }
        return CacheFailure;
      }
      if Hit(KeptAt(cache, key), now, io.again) {
        return Value(cache[key].value);
      }
      if !io.query {
        return DbFailure;
      }
      if id !in users {
        return NoRow;
      }
      if io.fill {
        cache := cache[key := Stored(users[id], CopyExpiry(now, io.jitter))];
      }
      fetched := Value(users[id]);
    }
  }

  /** The gRPC handlers: they narrow the int64 amount of the message to int32. */
  class UserService {
    const repo: UserRepoImpl

    constructor (repo: UserRepoImpl)
      ensures this.repo == repo
    {
      this.repo := repo;
    }

    /** A success debits the narrowed amount and nothing else: the requested one if and only if it fits int32. */
    method DeductBalance(id: int64, amount: int64, others: seq<UserOp>, fault: bool, queryFault: bool, delFault: bool)
      returns (success: bool, err: Error)
      modifies repo
      ensures success <==> err == Nil
      ensures success <==> !fault && DeductRow(old(repo.users), id, Narrow(amount)).1 == Affected(1)
      ensures success ==>
        && id in old(repo.users) && id in repo.users
        && repo.users - {id} == old(repo.users) - {id}
        && (repo.users[id] + (amount as int) == old(repo.users)[id] as int <==> FitsInt32(amount))
        && (repo.users[id] + (amount as int) - old(repo.users)[id]) % TWO_32 == 0
      ensures err == UserNotFound || err == LowBalance ==> repo.users == Others(old(repo.users), others)
    {
      NarrowKeepsIff(amount);
      err := repo.DeductBalance(id, Narrow(amount), others, fault, queryFault, delFault);
      success := err == Nil;
    }

    /** A restore of an unknown user succeeds and changes nothing; only a fault or an overflow fails. */
    method RestoreBalance(id: int64, amount: int64, fault: bool, delFault: bool) returns (success: bool, err: Error)
      modifies repo
      ensures success <==> err == Nil
      ensures success <==>
        !fault && (id in old(repo.users) ==> FitsInt32(old(repo.users)[id] + (Narrow(amount) as int)))
      ensures success && id in old(repo.users) ==>
        && id in repo.users && repo.users - {id} == old(repo.users) - {id}
        && (repo.users[id] as int == old(repo.users)[id] + (amount as int) <==> FitsInt32(amount))
        && (repo.users[id] - (amount as int) - old(repo.users)[id]) % TWO_32 == 0
      ensures !success || id !in old(repo.users) ==> repo.users == old(repo.users)
    {
      NarrowKeepsIff(amount);
      err := repo.RestoreBalance(id, Narrow(amount), fault, delFault);
      success := err == Nil;
    }
  }
}
