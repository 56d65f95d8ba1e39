/** How the product service builds the purchase saga and hands it to the coordinator. */
module SagaClient {
  import opened Ints
  import opened Rows
  import opened Wire

  datatype Rpc = DeductBalance | RestoreBalance | DeductStockSaga | RestoreStock

  /** "<address>/<full method name>" */
  datatype Endpoint = Endpoint(address: string, rpc: Rpc)

  /** One branch: an action, its compensation, and the one payload both of them receive. */
  datatype Branch = Branch(action: Endpoint, compensate: Endpoint, payload: seq<byte>)

  datatype SagaArgs = SagaArgs(gid: string, user: int64, product: int64, amount: int32)

  class Saga {
    const gid: string
    var branches: seq<Branch>

    constructor (gid: string)
      ensures this.gid == gid && branches == []
    {
      this.gid := gid;
      branches := [];
    }

    method Add(action: Endpoint, compensate: Endpoint, payload: seq<byte>)
      modifies this
      ensures branches == old(branches) + [Branch(action, compensate, payload)]
    {
      branches := branches + [Branch(action, compensate, payload)];
    }
  }

  /** Where the two services are reached. */
  datatype Services = Services(userAddr: string, prodAddr: string)

  /** The service that implements a method. */
  function Owner(services: Services, rpc: Rpc): string {
    if rpc.DeductBalance? || rpc.RestoreBalance? then services.userAddr else services.prodAddr
  }

  /**
   * What one remote call does to the two tables, its payload decoded by the
   * method's own message type. Only the service that owns the method answers it.
   */
  function Perform(services: Services, to: Endpoint, payload: seq<byte>, balance: Table, stock: Table):
    Option<(Table, Table, Outcome)>
  {
    if to.address != Owner(services, to.rpc) then None
    else match to.rpc
      case DeductBalance =>
        (match Unmarshal(DEDUCT_BALANCE_REQUEST, payload)
         case None => None
         case Some(m) => var (t, out) := DeductRow(balance, m.id, Narrow(m.amount)); Some((t, stock, out)))
      case RestoreBalance =>
        (match Unmarshal(RESTORE_BALANCE_REQ, payload)
         case None => None
         case Some(m) => var (t, out) := RestoreRow(balance, m.id, Narrow(m.amount)); Some((t, stock, out)))
      case DeductStockSaga =>
        (match Unmarshal(DEDUCT_STOCK_SAGA_REQ, payload)
         case None => None
         case Some(m) => var (t, out) := DeductRow(stock, m.id, Narrow(m.amount)); Some((balance, t, out)))
      case RestoreStock =>
        (match Unmarshal(RESTORE_STOCK_REQ, payload)
         case None => None
         case Some(m) => var (t, out) := RestoreRow(stock, m.id, Narrow(m.amount)); Some((balance, t, out)))
  }

  /** All actions of a saga, one after another, as long as each affects its row. */
  function PerformAll(services: Services, branches: seq<Branch>, balance: Table, stock: Table): Option<(Table, Table)> {
    if branches == [] then Some((balance, stock))
    else match Perform(services, branches[0].action, branches[0].payload, balance, stock)
      case Some((balance1, stock1, Affected(n))) =>
        if n > 0 then PerformAll(services, branches[1..], balance1, stock1) else None
      case _ => None
  }

  /** Balance first, stock second, each with its own compensation. */
  function SeckillBranches(userAddr: string, prodAddr: string, args: SagaArgs): seq<Branch> {
    [Branch(Endpoint(userAddr, DeductBalance), Endpoint(userAddr, RestoreBalance),
            Marshal(DEDUCT_BALANCE_REQUEST, Payload(args.user, args.amount))),
     Branch(Endpoint(prodAddr, DeductStockSaga), Endpoint(prodAddr, RestoreStock),
            Marshal(DEDUCT_STOCK_SAGA_REQ, Payload(args.product, args.amount)))]
  }

  /**
   * Through serialisation, both message types and the narrowing, the submitted
   * branches, sent where they are addressed, perform exactly the row operations
   * of the coordinator's steps; and there are two of them.
   */
  lemma BranchesDoWhatStepsDo(services: Services, args: SagaArgs, balance: Table, stock: Table)
    ensures var b := SeckillBranches(services.userAddr, services.prodAddr, args);
            var (debited, out0) := DeductRow(balance, args.user, args.amount);
            var (refunded, out1) := RestoreRow(balance, args.user, args.amount);
            var (taken, out2) := DeductRow(stock, args.product, args.amount);
            var (returned, out3) := RestoreRow(stock, args.product, args.amount);
            && |b| == 2
            && Perform(services, b[0].action, b[0].payload, balance, stock) == Some((debited, stock, out0))
            && Perform(services, b[0].compensate, b[0].payload, balance, stock) == Some((refunded, stock, out1))
            && Perform(services, b[1].action, b[1].payload, balance, stock) == Some((balance, taken, out2))
            && Perform(services, b[1].compensate, b[1].payload, balance, stock) == Some((balance, returned, out3))
  {
    hide Marshal, Unmarshal, DeductRow, RestoreRow, Narrow;
    SagaPayloadsSurvive(args.user, args.product, args.amount);
  }

  /**
   * ... so action then compensation of either branch leaves both tables as they
   * were, on every table where the action took effect.
   */
  lemma CompensationRestoresTables(services: Services, args: SagaArgs, k: nat, balance: Table, stock: Table)
    requires k < |SeckillBranches(services.userAddr, services.prodAddr, args)|
    requires var b := SeckillBranches(services.userAddr, services.prodAddr, args)[k];
             var r := Perform(services, b.action, b.payload, balance, stock);
             r.Some? && r.value.2 == Affected(1)
    ensures var b := SeckillBranches(services.userAddr, services.prodAddr, args)[k];
            var (balance1, stock1, _) := Perform(services, b.action, b.payload, balance, stock).value;
            Perform(services, b.compensate, b.payload, balance1, stock1) == Some((balance, stock, Affected(1)))
  {
    hide Perform, Narrow, Marshal;
    var b := SeckillBranches(services.userAddr, services.prodAddr, args)[k];
    var (balance1, stock1, _) := Perform(services, b.action, b.payload, balance, stock).value;
    BranchesDoWhatStepsDo(services, args, balance, stock);
    BranchesDoWhatStepsDo(services, args, balance1, stock1);
    if k == 0 {
      DeductThenRestore(balance, args.user, args.amount);
    } else {
      DeductThenRestore(stock, args.product, args.amount);
    }
  }

  /**
   * The submitted saga as a whole goes through exactly when the buyer and the
   * product have the amount and the differences fit the columns, and then it has
   * taken the amount once from each, and nothing else from anybody.
   */
  lemma SagaTakesOnce(services: Services, args: SagaArgs, balance: Table, stock: Table)
    ensures var end := PerformAll(services, SeckillBranches(services.userAddr, services.prodAddr, args), balance, stock);
            && (end.Some? <==>
                  && args.user in balance && balance[args.user] >= args.amount && FitsInt32(balance[args.user] - args.amount)
                  && args.product in stock && stock[args.product] >= args.amount
                  && FitsInt32(stock[args.product] - args.amount))
            && (end.Some? ==>
                  end.value == (balance[args.user := balance[args.user] - args.amount],
                                stock[args.product := stock[args.product] - args.amount]))
  {
    var b := SeckillBranches(services.userAddr, services.prodAddr, args);
    BranchesDoWhatStepsDo(services, args, balance, stock);
    var debited := DeductRow(balance, args.user, args.amount).0;
    BranchesDoWhatStepsDo(services, args, debited, stock);
    hide Perform, Marshal, SeckillBranches;
    var taken := DeductRow(stock, args.product, args.amount).0;
    assert b[1..][1..] == [];
    assert PerformAll(services, b[1..][1..], debited, taken) == Some((debited, taken));
    assert b[1..][0] == b[1];
  }

  lemma DeductThenRestore(t: Table, id: int64, amount: int32)
    requires DeductRow(t, id, amount).1 == Affected(1)
    ensures RestoreRow(DeductRow(t, id, amount).0, id, amount) == (t, Affected(1))
  {
    assert t[id := t[id] - amount][id := t[id]] == t;
  }

  /** The coordinator as its client sees it: a GID starts one saga only. */
  class SAGAData {
    const userAddr: string
    const prodAddr: string
    var submitted: map<string, seq<Branch>>

    constructor (userAddr: string, prodAddr: string)
      ensures this.userAddr == userAddr && this.prodAddr == prodAddr && submitted == map[]
    {
      this.userAddr := userAddr;
      this.prodAddr := prodAddr;
      submitted := map[];
    }

    /** Submitting a known GID again leaves the saga it started as it is. */
    method ExecuteSeckillSaga(args: SagaArgs)
      modifies this
      ensures submitted ==
        if args.gid in old(submitted) then old(submitted)
        else old(submitted)[args.gid := SeckillBranches(userAddr, prodAddr, args)]
      ensures args.gid !in old(submitted) ==>
        && args.gid in submitted && |submitted[args.gid]| == 2
        && var first, second := submitted[args.gid][0], submitted[args.gid][1];
           && first.action == Endpoint(userAddr, DeductBalance)
           && first.compensate == Endpoint(userAddr, RestoreBalance)
           && second.action == Endpoint(prodAddr, DeductStockSaga)
           && second.compensate == Endpoint(prodAddr, RestoreStock)
           && Unmarshal(DEDUCT_BALANCE_REQUEST, first.payload) == Some(Payload(args.user, args.amount))
           && Unmarshal(DEDUCT_STOCK_SAGA_REQ, second.payload) == Some(Payload(args.product, args.amount))
    {
      SagaPayloadsSurvive(args.user, args.product, args.amount);
      var saga := new Saga(args.gid);
      saga.Add(Endpoint(userAddr, DeductBalance), Endpoint(userAddr, RestoreBalance),
               Marshal(DEDUCT_BALANCE_REQUEST, Payload(args.user, args.amount)));
      saga.Add(Endpoint(prodAddr, DeductStockSaga), Endpoint(prodAddr, RestoreStock),
               Marshal(DEDUCT_STOCK_SAGA_REQ, Payload(args.product, args.amount)));
      assert saga.branches == SeckillBranches(userAddr, prodAddr, args);
      if saga.gid !in submitted {
        submitted := submitted[saga.gid := saga.branches];
      }
    }
  }
}
