/**
 Clients of the orders and products tables as a transition system.

 Four kinds of call run side by side: the atomic order service, the order service without a
 transaction, and the pessimistic and optimistic stock reservers. A client has one control point
 per awaited statement. Statements run one at a time at READ COMMITTED: a write becomes visible
 when its transaction commits, FOR UPDATE and UPDATE wait for the row's holder and then read the
 row again, and INSERT .. ON CONFLICT DO NOTHING waits for an in-flight insert of its key.
 */
module OrderMachine {
  import opened Wrappers
  import opened JsText
  import opened Fingerprint

  type ClientId = nat

  datatype Product = Product(stock: int, version: int)

  datatype Order = Order(id: Text, customerId: Text, productId: Text, quantity: int, amount: int,
                         key: Text, fingerprint: Option<Text>)

  /** Committed rows. `processing` holds the primary keys of order_processing. */
  datatype Database = Database(products: map<Text, Product>, orders: map<Text, Order>, processing: set<Text>)

  datatype Input = Input(customerId: Text, productId: Text, quantity: int, amount: int, key: Text)

  /** `id` is what the id generator answers; nothing is assumed about it. */
  datatype Call =
    | AtomicOrder(input: Input, id: Text)
    | UnlockedOrder(input: Input, id: Text)
    | LockedReserve(productId: Text, quantity: int)
    | OptimisticReserve(productId: Text, quantity: int, maxRetries: nat)

  datatype Error =
    | Validation | KeyReused | ProductNotFound | InsufficientInventory | RetriesExhausted
    | NullRecord | DatabaseFailure

  datatype Outcome = Returned(order: Order) | Reserved(product: Product) | Failed(error: Error)

  /** Control point: the statement a client runs next, with the locals it has read. */
  datatype Pc =
    | Start
    | Lookup
    | AwaitLock
    | Recheck(found: Option<Product>)
    | Reserve(row: Product)
    | Insert
    | ReadBack
    | InsertProcessing
    | Commit(result: Outcome)
    | Rollback(result: Outcome)
    | ReadProduct
    | CheckReference
    | Publish(order: Order)
    | Read(attempt: nat)
    | Update(attempt: nat, seen: Product)
    | Done(result: Outcome)

  /** Writes a transaction has made and not committed. */
  datatype Writes = Writes(product: Option<Product>, order: Option<Order>, processing: bool)

  const NO_WRITES := Writes(None, None, false)

  /** `mark` is the number of reservations committed when the call began. */
  datatype Client = Client(call: Call, pc: Pc, locked: bool, writes: Writes, mark: nat)

  datatype Resource = ProductRow(product: Text) | OrderKey(key: Text) | OrderId(id: Text)

  /** One committed reservation; `order` is the id of the order it was made for, if any. */
  datatype Entry = Entry(client: ClientId, product: Text, quantity: int, order: Option<Text>)

  datatype State = State(initial: Database, db: Database, clients: map<ClientId, Client>,
                         held: map<Resource, ClientId>, history: seq<Entry>)

  // ----- Calls

  predicate IsOrder(call: Call) { call.AtomicOrder? || call.UnlockedOrder? }

  predicate LocksRow(call: Call) { call.AtomicOrder? || call.LockedReserve? }

  /** Primary key of the product row: uuids are compared in canonical lower case. */
  function ProductOf(call: Call): Text
  {
    if IsOrder(call) then Lower(call.input.productId) else Lower(call.productId)
  }

  function QuantityOf(call: Call): int { if IsOrder(call) then call.input.quantity else call.quantity }

  predicate ValidInput(input: Input)
  {
    input.quantity > 0 && input.amount > 0 && !IsBlank(input.key)
  }

  function InputFingerprint(input: Input): Text
  {
    FingerprintOrderRequest(input.customerId, input.productId, input.quantity, input.amount)
  }

  /** The row an order call inserts. */
  function RowOf(call: Call): Order
    requires IsOrder(call)
  {
    var input := call.input;
    Order(call.id, Lower(input.customerId), Lower(input.productId), input.quantity, input.amount,
          input.key, Some(InputFingerprint(input)))
  }

  // ----- Rows

  function RowFingerprint(o: Order): Text
  {
    FingerprintOrderRequest(o.customerId, o.productId, o.quantity, o.amount)
  }

  /** Rows written before fingerprints were stored have theirs rebuilt. */
  function StoredFingerprint(o: Order): Text
  {
    match o.fingerprint
    case Some(f) => f
    case None => RowFingerprint(o)
  }

  function Resolve(o: Order, fingerprint: Text): Outcome
  {
    if StoredFingerprint(o) == fingerprint then Returned(o) else Failed(KeyReused)
  }

  predicate KeyTaken(db: Database, key: Text)
  {
    exists id :: id in db.orders && db.orders[id].key == key
  }

  /** The primary key and the unique constraint on idempotency_key. */
  predicate OrdersIndexed(db: Database)
  {
    && (forall id :: id in db.orders ==> db.orders[id].id == id)
    && (forall i, j :: i in db.orders && j in db.orders && db.orders[i].key == db.orders[j].key ==> i == j)
  }

  function FindByKey(db: Database, key: Text): (r: Option<Order>)
    requires OrdersIndexed(db)
    ensures r.Some? <==> KeyTaken(db, key)
    ensures r.Some? ==> r.value.key == key && r.value.id in db.orders && db.orders[r.value.id] == r.value
  {
    if KeyTaken(db, key) then
      var id :| id in db.orders && db.orders[id].key == key;
      Some(db.orders[id])
    else None
  }

  function FindProduct(db: Database, product: Text): Option<Product>
  {
    if product in db.products then Some(db.products[product]) else None
  }

  function Debit(p: Product, quantity: int): Product { Product(p.stock - quantity, p.version + 1) }

  function Apply(db: Database, product: Text, w: Writes): Database
  {
    Database(if w.product.Some? then db.products[product := w.product.value] else db.products,
             if w.order.Some? then db.orders[w.order.value.id := w.order.value] else db.orders,
             if w.processing && w.order.Some? then db.processing + {w.order.value.id} else db.processing)
  }

  // ----- Steps

  predicate OtherHolds(s: State, c: ClientId, r: Resource) { r in s.held && s.held[r] != c }

  /** The guard of reserveWithVersion, and of reserveLocked when no version is expected. */
  predicate Matches(db: Database, product: Text, quantity: int, version: Option<int>)
  {
    && product in db.products
    && db.products[product].stock >= quantity
    && (version.Some? ==> db.products[product].version == version.value)
  }

  /** The resource, held by another client, that the next statement of `c` waits for. */
  function BlockedBy(s: State, c: ClientId): Option<Resource>
    requires c in s.clients
  {
    var cl := s.clients[c];
    var row := ProductRow(ProductOf(cl.call));
    match cl.pc
    case AwaitLock => if row.product in s.db.products && OtherHolds(s, c, row) then Some(row) else None
    case Reserve(_) =>
      if Matches(s.db, row.product, QuantityOf(cl.call), None) && OtherHolds(s, c, row) then Some(row) else None
    case Update(_, seen) =>
      if Matches(s.db, row.product, QuantityOf(cl.call), Some(seen.version)) && OtherHolds(s, c, row)
      then Some(row) else None
    case CheckReference => if row.product in s.db.products && OtherHolds(s, c, row) then Some(row) else None
    case Insert =>
      if !IsOrder(cl.call) || KeyTaken(s.db, cl.call.input.key) then None
      else if OtherHolds(s, c, OrderKey(cl.call.input.key)) then Some(OrderKey(cl.call.input.key))
      else if cl.call.id !in s.db.orders && OtherHolds(s, c, OrderId(cl.call.id)) then Some(OrderId(cl.call.id))
      else None
    case _ => None
  }

  predicate Live(s: State, c: ClientId) { c in s.clients && !s.clients[c].pc.Done? }

  predicate Enabled(s: State, c: ClientId) { Live(s, c) && BlockedBy(s, c).None? }

  /** A step of `c` leaves other clients' locals alone, and every call and the past as they are. */
  predicate Confined(s: State, c: ClientId, s': State)
  {
    && s'.initial == s.initial
    && c in s.clients && c in s'.clients
    && s'.clients == s.clients[c := s'.clients[c]] && s'.clients[c].call == s.clients[c].call
    && s.history <= s'.history
  }

  function Goto(s: State, c: ClientId, cl: Client): State { s.(clients := s.clients[c := cl]) }

  function Release(held: map<Resource, ClientId>, c: ClientId): map<Resource, ClientId>
  {
    map r | r in held && held[r] != c :: held[r]
  }

  /** Commits the writes `w` of client `c`, releases what it holds and continues at `pc`. */
  function Settle(s: State, c: ClientId, w: Writes, pc: Pc): State
    requires c in s.clients
  {
    var cl := s.clients[c];
    var product := ProductOf(cl.call);
    var order := if w.processing && w.order.Some? then Some(w.order.value.id) else None;
    s.(db := Apply(s.db, product, w),
       clients := s.clients[c := cl.(pc := pc, locked := false, writes := NO_WRITES)],
       held := Release(s.held, c),
       history := if w.product.Some? then s.history + [Entry(c, product, QuantityOf(cl.call), order)] else s.history)
  }

  /** The statements that can change committed rows. */
  predicate Commits(pc: Pc) { pc.Commit? || pc.CheckReference? || pc.Update? }

  /** What the next statement of `c` commits. */
  function Effects(s: State, c: ClientId): Writes
    requires c in s.clients
  {
    var cl := s.clients[c];
    var product := ProductOf(cl.call);
    match cl.pc
    case Commit(_) => cl.writes
    case CheckReference => if product in s.db.products then cl.writes else NO_WRITES
    case Update(_, seen) =>
      if Matches(s.db, product, QuantityOf(cl.call), Some(seen.version))
      then Writes(Some(Debit(s.db.products[product], QuantityOf(cl.call))), None, false)
      else NO_WRITES
    case _ => NO_WRITES
  }

  /** After the locked row has been read and no order was found under the key. */
  function CheckStock(found: Option<Product>, quantity: int): Pc
  {
    match found
    case None => Rollback(Failed(ProductNotFound))
    case Some(p) => if p.stock < quantity then Rollback(Failed(InsufficientInventory)) else Reserve(p)
  }

  /** The same checks outside a transaction: a failure ends the call. */
  function CheckUnlocked(found: Option<Product>, quantity: int, next: Pc): Pc
  {
    match found
    case None => Done(Failed(ProductNotFound))
    case Some(p) => if p.stock < quantity then Done(Failed(InsufficientInventory)) else next
  }

  /** INSERT .. ON CONFLICT (idempotency_key) DO NOTHING: a conflict on the key reads the winner, one on the id is an error. */
  function InsertRow(s: State, c: ClientId): (s': State)
    requires c in s.clients && IsOrder(s.clients[c].call)
    ensures Confined(s, c, s') && s'.db == s.db && s'.history == s.history
  {
    var cl := s.clients[c];
    if KeyTaken(s.db, cl.call.input.key) then Goto(s, c, cl.(pc := ReadBack))
    else if cl.call.id in s.db.orders then
      if cl.call.AtomicOrder? then Goto(s, c, cl.(pc := Rollback(Failed(DatabaseFailure))))
      else Settle(s, c, NO_WRITES, Done(Failed(DatabaseFailure)))
    else
      Goto(s, c, cl.(writes := cl.writes.(order := Some(RowOf(cl.call))),
                     pc := if cl.call.AtomicOrder? then InsertProcessing else CheckReference))
      .(held := s.held[OrderKey(cl.call.input.key) := c][OrderId(cl.call.id) := c])
  }

  /** The next statement of `c` runs and answers, and `c` goes on to its next await. */
  function Advance(s: State, c: ClientId): (s': State)
    requires Live(s, c) && OrdersIndexed(s.db)
    ensures Confined(s, c, s')
    ensures !Commits(s.clients[c].pc) ==> s'.db == s.db && s'.history == s.history
  {
    var cl := s.clients[c];
    var product := ProductOf(cl.call);
    var quantity := QuantityOf(cl.call);
    match cl.pc
    case Start =>
      var begun := cl.(mark := |s.history|);
      if IsOrder(cl.call) then
        if ValidInput(cl.call.input) then Goto(s, c, begun.(pc := Lookup)) else Settle(s, c, NO_WRITES, Done(Failed(Validation)))
      else if quantity <= 0 then Settle(s, c, NO_WRITES, Done(Failed(Validation)))
      else Goto(s, c, begun.(pc := if cl.call.LockedReserve? then AwaitLock else Read(1)))
    case Lookup =>
      if !IsOrder(cl.call) then s else
      (match FindByKey(s.db, cl.call.input.key)
       case Some(o) => Settle(s, c, NO_WRITES, Done(Resolve(o, InputFingerprint(cl.call.input))))
       case None => Goto(s, c, cl.(pc := if cl.call.AtomicOrder? then AwaitLock else ReadProduct)))
    case AwaitLock =>
      var found := FindProduct(s.db, product);
      var pc := if cl.call.AtomicOrder? then Recheck(found) else CheckStock(found, quantity);
      if found.None? then Goto(s, c, cl.(pc := pc))
      else Goto(s, c, cl.(pc := pc, locked := true)).(held := s.held[ProductRow(product) := c])
    case Recheck(found) =>
      if !IsOrder(cl.call) then s else
      (match FindByKey(s.db, cl.call.input.key)
       case Some(o) =>
         var result := Resolve(o, InputFingerprint(cl.call.input));
         Goto(s, c, cl.(pc := if result.Returned? then Commit(result) else Rollback(result)))
       case None => Goto(s, c, cl.(pc := CheckStock(found, quantity))))
    case Reserve(_) =>
      if Matches(s.db, product, quantity, None) then
        var row := Debit(s.db.products[product], quantity);
        Goto(s, c, cl.(writes := Writes(Some(row), None, false),
                       pc := if cl.call.AtomicOrder? then Insert else Commit(Reserved(row))))
      else Goto(s, c, cl.(pc := Rollback(Failed(InsufficientInventory))))
    case Insert => if IsOrder(cl.call) then InsertRow(s, c) else s
    case ReadBack =>
      if !IsOrder(cl.call) then s else
      var result := match FindByKey(s.db, cl.call.input.key)
        case Some(o) => Resolve(o, InputFingerprint(cl.call.input))
        case None => Failed(NullRecord);
      if cl.call.AtomicOrder? then Goto(s, c, cl.(pc := Rollback(result)))
      else Settle(s, c, NO_WRITES, Done(result))
    case InsertProcessing =>
      if !IsOrder(cl.call) then s
      else if cl.call.id in s.db.processing then Goto(s, c, cl.(pc := Rollback(Failed(DatabaseFailure))))
      else Goto(s, c, cl.(writes := cl.writes.(processing := true), pc := Commit(Returned(RowOf(cl.call)))))
    case Commit(result) => Settle(s, c, Effects(s, c), Done(result))
    case Rollback(result) => Settle(s, c, NO_WRITES, Done(result))
    case ReadProduct =>
      var pc := CheckUnlocked(FindProduct(s.db, product), quantity, Insert);
      if pc.Done? then Settle(s, c, NO_WRITES, pc) else Goto(s, c, cl.(pc := pc))
    case CheckReference =>
      Settle(s, c, Effects(s, c),
             if product in s.db.products && IsOrder(cl.call) then Publish(RowOf(cl.call)) else Done(Failed(DatabaseFailure)))
    case Publish(o) => Settle(s, c, NO_WRITES, Done(Returned(o)))
    case Read(attempt) =>
      var found := FindProduct(s.db, product);
      var pc := CheckUnlocked(found, quantity, if found.Some? then Update(attempt, found.value) else Start);
      if pc.Done? then Settle(s, c, NO_WRITES, pc) else Goto(s, c, cl.(pc := pc))
    case Update(attempt, seen) =>
      if Matches(s.db, product, quantity, Some(seen.version)) then
        Settle(s, c, Effects(s, c), Done(Reserved(Debit(s.db.products[product], quantity))))
      else if cl.call.OptimisticReserve? && attempt <= cl.call.maxRetries then Goto(s, c, cl.(pc := Read(attempt + 1)))
      else Settle(s, c, NO_WRITES, Done(Failed(RetriesExhausted)))
  }

  /** What a call reports when a statement fails; a failed ROLLBACK still reports its cause. */
  function FailureOf(pc: Pc): Outcome
  {
    if pc.Rollback? then pc.result else Failed(DatabaseFailure)
  }

  /** The next statement takes effect but its answer is lost. */
  function LostReply(s: State, c: ClientId): State
    requires c in s.clients
  {
    Settle(s, c, Effects(s, c), Done(FailureOf(s.clients[c].pc)))
  }

  /** The call fails before its next statement; its transaction is undone. */
  function Abort(s: State, c: ClientId): State
    requires c in s.clients
  {
    Settle(s, c, NO_WRITES, Done(FailureOf(s.clients[c].pc)))
  }

  ghost predicate StepOf(s: State, c: ClientId, s': State)
  {
    && Live(s, c)
    && OrdersIndexed(s.db)
    && ((Enabled(s, c) && (s' == Advance(s, c) || s' == LostReply(s, c))) || s' == Abort(s, c))
  }

  ghost predicate Next(s: State, s': State) { exists c :: StepOf(s, c, s') }

  /** Constraints of the tables; uuids are stored in lower case and a stored fingerprint is its row's. */
  ghost predicate DatabaseOk(db: Database)
  {
    && OrdersIndexed(db)
    && (forall p :: p in db.products ==> db.products[p].stock >= 0 && Lower(p) == p)
    && (forall id :: id in db.orders ==> db.orders[id].productId in db.products && db.orders[id].quantity > 0)
    && (forall id :: id in db.orders ==> StoredFingerprint(db.orders[id]) == RowFingerprint(db.orders[id]))
    && db.processing <= db.orders.Keys
  }

  ghost predicate Init(s: State)
  {
    && DatabaseOk(s.initial)
    && s.db == s.initial
    && s.held == map[]
    && s.history == []
    && forall c :: c in s.clients ==> s.clients[c] == Client(s.clients[c].call, Start, false, NO_WRITES, 0)
  }

  ghost predicate StepAt(states: seq<State>, i: nat)
  {
    i + 1 < |states| && Next(states[i], states[i + 1])
  }

  /** A run from any tables, with any number of clients, under any interleaving. */
  ghost predicate Run(states: seq<State>)
  {
    && |states| > 0
    && Init(states[0])
    && forall i: nat :: i + 1 < |states| ==> StepAt(states, i)
  }
}
