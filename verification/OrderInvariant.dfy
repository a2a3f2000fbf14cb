/** What every state of every run of the order machine satisfies, and why each step keeps it. */
module OrderInvariant {
  import opened Wrappers
  import opened JsText
  import opened Fingerprint
  import opened Sums
  import opened OrderMachine

  // ----- Resources

  /** What a client holds: its product row once locked, and the slots of its in-flight order. */
  predicate Accounts(cl: Client, r: Resource)
  {
    match r
    case ProductRow(product) => cl.locked && product == ProductOf(cl.call)
    case OrderKey(key) => cl.writes.order.Some? && IsOrder(cl.call) && key == cl.call.input.key
    case OrderId(id) => cl.writes.order.Some? && IsOrder(cl.call) && id == cl.call.id
  }

  /** Every held resource is one its holder accounts for. */
  ghost predicate HeldAccounted(s: State)
  {
    forall r :: r in s.held ==> s.held[r] in s.clients && Accounts(s.clients[s.held[r]], r)
  }

  /** Every client holds all it accounts for, so no two clients account for the same resource. */
  ghost predicate HoldingsHeld(s: State)
  {
    forall c, r :: c in s.clients && Accounts(s.clients[c], r) ==> r in s.held && s.held[r] == c
  }

  ghost predicate Ownership(s: State) { HeldAccounted(s) && HoldingsHeld(s) }

  // ----- Counting reservations

  ghost function Count(h: seq<Entry>, product: Text): nat
  {
    if h == [] then 0 else Count(h[..|h| - 1], product) + if h[|h| - 1].product == product then 1 else 0
  }

  /** Quantity and number of the reservations that were made for no order. */
  ghost function Standalone(h: seq<Entry>, product: Text): (int, int)
  {
    if h == [] then (0, 0) else
    var rest, e := Standalone(h[..|h| - 1], product), h[|h| - 1];
    if e.product == product && e.order.None? then (rest.0 + e.quantity, rest.1 + 1) else rest
  }

  /** Stock and version after the reservations of `h` are made one after the other. */
  ghost function Replay(products: map<Text, Product>, h: seq<Entry>): Option<map<Text, Product>>
  {
    if h == [] then Some(products) else
    var e := h[|h| - 1];
    match Replay(products, h[..|h| - 1])
    case Some(m) =>
      if e.product in m && e.quantity > 0 && m[e.product].stock >= e.quantity
      then Some(m[e.product := Debit(m[e.product], e.quantity)]) else None
    case None => None
  }

  ghost function CountSince(h: seq<Entry>, mark: nat, product: Text): nat
  {
    if mark <= |h| then Count(h[mark..], product) else 0
  }

  // ----- Orders with a processing record

  ghost function OrderWeight(db: Database, product: Text, unit: bool): Text -> int
  {
    id => if id in db.orders && db.orders[id].productId == product
          then if unit then 1 else db.orders[id].quantity else 0
  }

  /** Quantity of one product over the orders that have a processing record. */
  ghost function Sold(db: Database, product: Text): int { Sum(db.processing, OrderWeight(db, product, false)) }

  ghost function SoldOrders(db: Database, product: Text): int { Sum(db.processing, OrderWeight(db, product, true)) }

  // ----- Clients

  predicate Idle(cl: Client) { !cl.locked && cl.writes == NO_WRITES }

  predicate RowIs(db: Database, product: Text, row: Product)
  {
    product in db.products && db.products[product] == row
  }

  /** A committed order under the call's key with the call's fingerprint. */
  predicate CommittedFor(db: Database, input: Input, o: Order)
  {
    && o.id in db.orders && db.orders[o.id] == o
    && o.key == input.key
    && StoredFingerprint(o) == InputFingerprint(input)
  }

  predicate Answers(db: Database, call: Call, result: Outcome)
  {
    result.Returned? ==> IsOrder(call) && CommittedFor(db, call.input, result.order)
  }

  /** The reservation of a call, made against the committed row. */
  predicate ReservesRow(db: Database, call: Call, w: Writes)
  {
    && Matches(db, ProductOf(call), QuantityOf(call), None)
    && QuantityOf(call) > 0
    && w.product == Some(Debit(db.products[ProductOf(call)], QuantityOf(call)))
  }

  /** The order row of a call, whose key and id are still free. */
  predicate InsertsRow(db: Database, call: Call, w: Writes)
  {
    && IsOrder(call)
    && QuantityOf(call) > 0
    && w.order == Some(RowOf(call))
    && !KeyTaken(db, call.input.key)
    && call.id !in db.orders
  }

  /** Writes that may be committed on the tables as they are. */
  predicate WritesOk(db: Database, call: Call, w: Writes)
  {
    && (w.product.Some? ==> ReservesRow(db, call, w) && !call.UnlockedOrder?)
    && (w.order.Some? ==> InsertsRow(db, call, w) && ProductOf(call) in db.products)
    && (w.processing <==> w.product.Some? && w.order.Some?)
    && (call.AtomicOrder? ==> (w.product.Some? <==> w.order.Some?))
  }

  ghost predicate ClientOk(db: Database, h: seq<Entry>, cl: Client)
  {
    var product, quantity := ProductOf(cl.call), QuantityOf(cl.call);
    match cl.pc
    case Start => Idle(cl)
    case Lookup => Idle(cl) && IsOrder(cl.call) && ValidInput(cl.call.input)
    case AwaitLock => Idle(cl) && LocksRow(cl.call) && quantity > 0
    case Recheck(found) =>
      && cl.call.AtomicOrder? && quantity > 0 && cl.writes == NO_WRITES
      && cl.locked == found.Some? && (found.Some? ==> RowIs(db, product, found.value))
    case Reserve(row) =>
      && LocksRow(cl.call) && quantity > 0 && cl.locked && cl.writes == NO_WRITES
      && RowIs(db, product, row) && row.stock >= quantity
    case Insert => InsertOk(db, cl)
    case ReadBack => InsertOk(db, cl) && KeyTaken(db, cl.call.input.key)
    case InsertProcessing =>
      && cl.call.AtomicOrder? && cl.locked
      && ReservesRow(db, cl.call, cl.writes) && InsertsRow(db, cl.call, cl.writes) && !cl.writes.processing
    case Commit(result) =>
      && LocksRow(cl.call) && WritesOk(db, cl.call, cl.writes) && (cl.writes.product.Some? ==> cl.locked)
      && (if cl.call.AtomicOrder? && cl.writes.order.Some? then result == Returned(RowOf(cl.call))
          else Answers(db, cl.call, result) && result != Failed(RetriesExhausted))
    case Rollback(result) =>
      && LocksRow(cl.call) && Answers(db, cl.call, result) && result != Failed(RetriesExhausted)
      && (cl.writes.order.Some? ==> cl.call.AtomicOrder?)
    case ReadProduct => Idle(cl) && cl.call.UnlockedOrder? && quantity > 0
    case CheckReference =>
      && cl.call.UnlockedOrder? && !cl.locked && product in db.products
      && InsertsRow(db, cl.call, cl.writes) && cl.writes.product.None? && !cl.writes.processing
    case Publish(o) => Idle(cl) && cl.call.UnlockedOrder? && CommittedFor(db, cl.call.input, o)
    case Read(attempt) => AttemptOk(h, cl, attempt)
    case Update(attempt, seen) =>
      && AttemptOk(h, cl, attempt) && seen.stock >= quantity
      && product in db.products && seen.version <= db.products[product].version
      && (seen.version == db.products[product].version ==> seen == db.products[product])
      && CountSince(h, cl.mark, product) >= attempt - 1 + db.products[product].version - seen.version
    case Done(result) =>
      && Idle(cl) && Answers(db, cl.call, result)
      && (result == Failed(RetriesExhausted) ==>
            cl.call.OptimisticReserve? && CountSince(h, cl.mark, product) >= cl.call.maxRetries + 1)
  }

  predicate InsertOk(db: Database, cl: Client)
  {
    && IsOrder(cl.call) && QuantityOf(cl.call) > 0
    && (if cl.call.AtomicOrder?
        then cl.locked && ReservesRow(db, cl.call, cl.writes) && cl.writes.order.None? && !cl.writes.processing
        else Idle(cl) && ProductOf(cl.call) in db.products)
  }

  /** Each earlier attempt of an optimistic call has met a reservation of another client. */
  ghost predicate AttemptOk(h: seq<Entry>, cl: Client, attempt: nat)
  {
    && Idle(cl) && cl.call.OptimisticReserve? && cl.call.quantity > 0
    && 1 <= attempt <= cl.call.maxRetries + 1
    && CountSince(h, cl.mark, ProductOf(cl.call)) >= attempt - 1
  }

  // ----- The invariant

  ghost predicate Tables(s: State)
  {
    && DatabaseOk(s.initial) && DatabaseOk(s.db)
    && s.db.products.Keys == s.initial.products.Keys
    && (forall id :: id in s.initial.orders ==> id in s.db.orders && s.db.orders[id] == s.initial.orders[id])
    && s.initial.processing <= s.db.processing
    && (forall id :: id in s.db.processing && id in s.initial.orders ==> id in s.initial.processing)
  }

  ghost predicate ClientAt(s: State, c: ClientId)
  {
    c in s.clients ==> ClientOk(s.db, s.history, s.clients[c]) && s.clients[c].mark <= |s.history|
  }

  ghost predicate Clients(s: State) { forall c :: c in s.clients ==> ClientAt(s, c) }

  /** A reservation belongs to one finished call, and to that call's committed order if it made one. */
  ghost predicate EntryOk(s: State, e: Entry)
  {
    && e.client in s.clients
    && var cl := s.clients[e.client];
    && cl.pc.Done? && cl.pc.result != Failed(RetriesExhausted)
    && e.product == ProductOf(cl.call) && e.quantity == QuantityOf(cl.call)
    && !cl.call.UnlockedOrder?
    && (cl.call.AtomicOrder? <==> e.order.Some?)
    && (cl.call.AtomicOrder? ==> e.order.value == cl.call.id && Wrote(s, e.client, cl.call.id))
  }

  ghost predicate Entries(s: State)
  {
    && (forall i :: 0 <= i < |s.history| ==> EntryOk(s, s.history[i]))
    && (forall i, j :: 0 <= i < j < |s.history| ==>
          s.history[i].client != s.history[j].client
          && (s.history[i].order.Some? ==> s.history[i].order != s.history[j].order))
  }

  /** Client `c` committed order `id`; it has a processing record exactly if the call was atomic. */
  ghost predicate Wrote(s: State, c: ClientId, id: Text)
  {
    && c in s.clients
    && var cl := s.clients[c];
    && IsOrder(cl.call) && cl.call.id == id
    && (cl.pc.Done? || cl.pc.Publish?)
    && id !in s.initial.orders
    && id in s.db.orders && s.db.orders[id] == RowOf(cl.call)
    && (cl.call.AtomicOrder? <==> id in s.db.processing)
  }

  ghost predicate Provenance(s: State)
  {
    forall id :: id in s.db.orders && id !in s.initial.orders ==> exists c :: Wrote(s, c, id)
  }

  /** Stock plus what orders and reservers took, and version less their number, never change. */
  ghost predicate Balanced(s: State)
  {
    forall p :: p in s.db.products && p in s.initial.products ==>
      && s.db.products[p].stock + Sold(s.db, p) + Standalone(s.history, p).0
         == s.initial.products[p].stock + Sold(s.initial, p)
      && s.db.products[p].version - SoldOrders(s.db, p) - Standalone(s.history, p).1
         == s.initial.products[p].version - SoldOrders(s.initial, p)
  }

  ghost predicate Serial(s: State) { Replay(s.initial.products, s.history) == Some(s.db.products) }

  ghost predicate Inv(s: State)
  {
    Tables(s) && Ownership(s) && Clients(s) && Entries(s) && Provenance(s) && Balanced(s) && Serial(s)
  }

  // ----- Steps that commit nothing and release nothing

  /** Client `c` moves to `cl` and takes the free resources `taken`; tables and history stay. */
  ghost predicate Moves(s: State, c: ClientId, cl: Client, taken: set<Resource>, s': State)
  {
    && Live(s, c)
    && s' == Goto(s, c, cl).(held := s'.held)
    && cl.call == s.clients[c].call && !s.clients[c].pc.Publish?
    && (forall r :: Accounts(cl, r) <==> Accounts(s.clients[c], r) || r in taken)
    && (forall r :: r in taken ==> !OtherHolds(s, c, r))
    && (forall r :: r in s'.held <==> r in s.held || r in taken)
    && (forall r :: r in s'.held ==> s'.held[r] == if r in taken then c else s.held[r])
  }

  lemma MoveKeepsAccounts(s: State, c: ClientId, cl: Client, taken: set<Resource>, s': State)
    requires HeldAccounted(s) && Moves(s, c, cl, taken, s')
    ensures HeldAccounted(s')
  {
    forall r | r in s'.held ensures s'.held[r] in s'.clients && Accounts(s'.clients[s'.held[r]], r) {
      assert r !in taken ==> Accounts(s.clients[s.held[r]], r);
    }
  }

  lemma MoveKeepsHoldings(s: State, c: ClientId, cl: Client, taken: set<Resource>, s': State)
    requires HoldingsHeld(s) && Moves(s, c, cl, taken, s')
    ensures HoldingsHeld(s')
  {
    forall d, r | d in s'.clients && Accounts(s'.clients[d], r) ensures r in s'.held && s'.held[r] == d {
      if d != c || r !in taken {
        assert Accounts(s.clients[d], r);
        assert s.held[r] == d;
      }
    }
  }

  lemma MoveKeepsWriter(s: State, c: ClientId, cl: Client, taken: set<Resource>, s': State, d: ClientId, id: Text)
    requires Moves(s, c, cl, taken, s') && Wrote(s, d, id)
    ensures Wrote(s', d, id)
  {}

  lemma MoveKeepsHistory(s: State, c: ClientId, cl: Client, taken: set<Resource>, s': State)
    requires Entries(s) && Provenance(s) && Moves(s, c, cl, taken, s')
    ensures Entries(s') && Provenance(s')
  {
    forall i | 0 <= i < |s'.history| ensures EntryOk(s', s'.history[i]) {
      var e := s.history[i];
      assert EntryOk(s, e);
      if s.clients[e.client].call.AtomicOrder? {
        MoveKeepsWriter(s, c, cl, taken, s', e.client, e.order.value);
      }
    }
    forall id | id in s'.db.orders && id !in s'.initial.orders ensures exists d :: Wrote(s', d, id) {
      var d :| Wrote(s, d, id);
      MoveKeepsWriter(s, c, cl, taken, s', d, id);
    }
  }

  lemma MoveKeeps(s: State, c: ClientId, cl: Client, taken: set<Resource>, s': State)
    requires Inv(s) && Moves(s, c, cl, taken, s')
    requires ClientOk(s.db, s.history, cl) && cl.mark <= |s.history|
    ensures Inv(s')
  {
    MoveKeepsAccounts(s, c, cl, taken, s');
    MoveKeepsHoldings(s, c, cl, taken, s');
    MoveKeepsHistory(s, c, cl, taken, s');
  }

  // ----- Committing writes

  lemma ApplyKeepsIndexes(db: Database, call: Call, w: Writes)
    requires OrdersIndexed(db) && (w.order.Some? ==> InsertsRow(db, call, w))
    ensures OrdersIndexed(Apply(db, ProductOf(call), w))
  {}

  lemma RowFingerprintStored(call: Call)
    requires IsOrder(call)
    ensures StoredFingerprint(RowOf(call)) == RowFingerprint(RowOf(call))
  {
    var input := call.input;
    FingerprintSurvivesStorage(input.customerId, input.productId, input.quantity, input.amount);
  }

  lemma ApplyKeepsFingerprints(db: Database, call: Call, w: Writes)
    requires w.order.Some? ==> InsertsRow(db, call, w)
    requires forall id :: id in db.orders ==> StoredFingerprint(db.orders[id]) == RowFingerprint(db.orders[id])
    ensures var db' := Apply(db, ProductOf(call), w);
            forall id :: id in db'.orders ==> StoredFingerprint(db'.orders[id]) == RowFingerprint(db'.orders[id])
  {
    var db' := Apply(db, ProductOf(call), w);
    if w.order.Some? {
      RowFingerprintStored(call);
    }
    forall id | id in db'.orders ensures StoredFingerprint(db'.orders[id]) == RowFingerprint(db'.orders[id]) {
      assert (w.order.Some? && id == call.id) || db'.orders[id] == db.orders[id];
    }
  }

  lemma ApplyKeepsProducts(db: Database, call: Call, w: Writes)
    requires DatabaseOk(db) && WritesOk(db, call, w)
    ensures var db' := Apply(db, ProductOf(call), w);
            && (forall p :: p in db'.products ==> db'.products[p].stock >= 0 && Lower(p) == p)
            && (forall id :: id in db'.orders ==> db'.orders[id].productId in db'.products && db'.orders[id].quantity > 0)
  {}

  lemma ApplyKeepsRows(db: Database, call: Call, w: Writes)
    requires DatabaseOk(db) && WritesOk(db, call, w)
    ensures DatabaseOk(Apply(db, ProductOf(call), w))
  {
    ApplyKeepsIndexes(db, call, w);
    ApplyKeepsProducts(db, call, w);
    ApplyKeepsFingerprints(db, call, w);
  }

  /** What client `other` relies on is the same, or has only grown, in the new tables and history. */
  ghost predicate Respects(db: Database, h: seq<Entry>, db': Database, h': seq<Entry>, other: Client)
  {
    var product := ProductOf(other.call);
    && db'.products.Keys == db.products.Keys
    && (forall id :: id in db.orders ==> id in db'.orders && db'.orders[id] == db.orders[id])
    && (other.locked && product in db.products ==> db'.products[product] == db.products[product])
    && (other.writes.order.Some? && IsOrder(other.call) && other.call.id !in db.orders ==> other.call.id !in db'.orders)
    && (other.writes.order.Some? && IsOrder(other.call) && KeyTaken(db', other.call.input.key) ==>
          KeyTaken(db, other.call.input.key))
    && CountSince(h', other.mark, product) >= CountSince(h, other.mark, product)
    && (product in db.products ==>
          var row, row' := db.products[product], db'.products[product];
          && CountSince(h', other.mark, product) - CountSince(h, other.mark, product) == row'.version - row.version
          && (row'.version == row.version ==> row' == row))
  }

  lemma KeyStaysTaken(db: Database, db': Database, key: Text)
    requires forall id :: id in db.orders ==> id in db'.orders && db'.orders[id] == db.orders[id]
    requires KeyTaken(db, key)
    ensures KeyTaken(db', key)
  {
    var id :| id in db.orders && db.orders[id].key == key;
    assert db'.orders[id].key == key;
  }

  lemma CounterStays(db: Database, h: seq<Entry>, db': Database, h': seq<Entry>, other: Client)
    requires Respects(db, h, db', h', other)
    requires other.pc.Read? || other.pc.Update? || other.pc.Done?
    requires ClientOk(db, h, other)
    ensures ClientOk(db', h', other)
  {}

  lemma ClientStays(db: Database, h: seq<Entry>, db': Database, h': seq<Entry>, other: Client)
    requires Respects(db, h, db', h', other)
    requires ClientOk(db, h, other)
    ensures ClientOk(db', h', other)
  {
    if other.pc.Read? || other.pc.Update? || other.pc.Done? {
      CounterStays(db, h, db', h', other);
      return;
    }
    if IsOrder(other.call) && KeyTaken(db, other.call.input.key) {
      KeyStaysTaken(db, db', other.call.input.key);
    }
  }

  // ----- Steps that commit and release

  /** Client `c` commits `w` and ends at `pc`; no other client holds what it writes. */
  ghost predicate Settles(s: State, c: ClientId, w: Writes, pc: Pc)
  {
    && Live(s, c)
    && var cl := s.clients[c];
    && WritesOk(s.db, cl.call, w)
    && (w.product.Some? ==> !OtherHolds(s, c, ProductRow(ProductOf(cl.call))))
    && (w.order.Some? ==> !OtherHolds(s, c, OrderKey(cl.call.input.key)) && !OtherHolds(s, c, OrderId(cl.call.id)))
    && (w.product.Some? ==> pc.Done? && pc.result != Failed(RetriesExhausted))
    && (pc.Done? || (pc.Publish? && w.order.Some?))
  }

  lemma SettleKeepsOwnership(s: State, c: ClientId, w: Writes, pc: Pc)
    requires Ownership(s) && c in s.clients
    ensures Ownership(Settle(s, c, w, pc))
  {
    var s' := Settle(s, c, w, pc);
    forall d, r | d in s'.clients && Accounts(s'.clients[d], r) ensures r in s'.held && s'.held[r] == d {
      assert d != c;
      assert Accounts(s.clients[d], r);
    }
  }

  lemma CountExtends(h: seq<Entry>, e: Entry, mark: nat, product: Text)
    requires mark <= |h|
    ensures CountSince(h + [e], mark, product) == CountSince(h, mark, product) + if e.product == product then 1 else 0
  {
    assert (h + [e])[mark..] == h[mark..] + [e];
    assert (h[mark..] + [e])[..|h| - mark] == h[mark..];
  }

  /** The writes of `c` are outside everything another client has locked or is inserting. */
  lemma SettleRespects(s: State, c: ClientId, w: Writes, pc: Pc, d: ClientId)
    requires Settles(s, c, w, pc) && Ownership(s) && OrdersIndexed(s.db)
    requires d in s.clients && d != c && s.clients[d].mark <= |s.history|
    ensures Respects(s.db, s.history, Settle(s, c, w, pc).db, Settle(s, c, w, pc).history, s.clients[d])
  {
    var s' := Settle(s, c, w, pc);
    var cl, other := s.clients[c], s.clients[d];
    if w.product.Some? {
      CountExtends(s.history, s'.history[|s.history|], other.mark, ProductOf(other.call));
      if other.locked {
        assert Accounts(other, ProductRow(ProductOf(other.call)));
      }
    }
    if w.order.Some? && other.writes.order.Some? && IsOrder(other.call) {
      assert Accounts(other, OrderKey(other.call.input.key)) && Accounts(other, OrderId(other.call.id));
      InsertTakesOnly(s.db, ProductOf(cl.call), w, other.call.input.key);
    }
  }

  lemma InsertTakesOnly(db: Database, product: Text, w: Writes, key: Text)
    requires w.order.Some? && w.order.value.key != key && w.order.value.id !in db.orders
    ensures KeyTaken(Apply(db, product, w), key) ==> KeyTaken(db, key)
  {
    var db' := Apply(db, product, w);
    if KeyTaken(db', key) {
      var id :| id in db'.orders && db'.orders[id].key == key;
      assert db.orders[id].key == key;
    }
  }

  lemma SettleKeepsWriter(s: State, c: ClientId, w: Writes, pc: Pc, d: ClientId, id: Text)
    requires Settles(s, c, w, pc) && Wrote(s, d, id) && s.db.processing <= s.db.orders.Keys
    requires s.clients[c].pc.Publish? ==> pc.Done?
    ensures Wrote(Settle(s, c, w, pc), d, id)
  {}

  lemma SettleWrites(s: State, c: ClientId, w: Writes, pc: Pc)
    requires Settles(s, c, w, pc) && w.order.Some? && Tables(s)
    ensures Wrote(Settle(s, c, w, pc), c, s.clients[c].call.id)
  {}

  lemma SettleKeepsHistory(s: State, c: ClientId, w: Writes, pc: Pc)
    requires Tables(s) && Entries(s) && Provenance(s) && Settles(s, c, w, pc)
    requires s.clients[c].pc.Publish? ==> pc.Done?
    ensures Entries(Settle(s, c, w, pc)) && Provenance(Settle(s, c, w, pc))
  {
    var s' := Settle(s, c, w, pc);
    if w.order.Some? {
      SettleWrites(s, c, w, pc);
    }
    forall i | 0 <= i < |s'.history| ensures EntryOk(s', s'.history[i]) {
      if i < |s.history| {
        var e := s.history[i];
        assert EntryOk(s, e);
        if s.clients[e.client].call.AtomicOrder? {
          SettleKeepsWriter(s, c, w, pc, e.client, e.order.value);
        }
      }
    }
    forall i, j | 0 <= i < j < |s'.history|
      ensures s'.history[i].client != s'.history[j].client
      ensures s'.history[i].order.Some? ==> s'.history[i].order != s'.history[j].order
    {
      assert EntryOk(s, s.history[i]);
    }
    forall id | id in s'.db.orders && id !in s'.initial.orders ensures exists d :: Wrote(s', d, id) {
      if id in s.db.orders {
        var d :| Wrote(s, d, id);
        SettleKeepsWriter(s, c, w, pc, d, id);
      }
    }
  }

  lemma SoldAfter(db: Database, call: Call, w: Writes, product: Text, unit: bool)
    requires DatabaseOk(db) && WritesOk(db, call, w)
    ensures var db' := Apply(db, ProductOf(call), w);
            Sum(db'.processing, OrderWeight(db', product, unit))
            == Sum(db.processing, OrderWeight(db, product, unit))
               + if w.processing && ProductOf(call) == product then if unit then 1 else QuantityOf(call) else 0
  {
    var db' := Apply(db, ProductOf(call), w);
    SumAgrees(db.processing, OrderWeight(db, product, unit), OrderWeight(db', product, unit));
    if w.processing {
      SumAdd(db.processing, call.id, OrderWeight(db', product, unit));
    }
  }

  lemma StandaloneExtends(h: seq<Entry>, e: Entry, product: Text)
    ensures Standalone(h + [e], product)
            == if e.product == product && e.order.None?
               then (Standalone(h, product).0 + e.quantity, Standalone(h, product).1 + 1) else Standalone(h, product)
  {
    assert (h + [e])[..|h|] == h;
  }

  lemma SettleKeepsBalance(s: State, c: ClientId, w: Writes, pc: Pc)
    requires Tables(s) && Balanced(s) && Settles(s, c, w, pc)
    ensures Balanced(Settle(s, c, w, pc))
  {
    var s', call := Settle(s, c, w, pc), s.clients[c].call;
    forall p | p in s'.db.products && p in s'.initial.products
      ensures s'.db.products[p].stock + Sold(s'.db, p) + Standalone(s'.history, p).0
              == s'.initial.products[p].stock + Sold(s'.initial, p)
      ensures s'.db.products[p].version - SoldOrders(s'.db, p) - Standalone(s'.history, p).1
              == s'.initial.products[p].version - SoldOrders(s'.initial, p)
    {
      SoldAfter(s.db, call, w, p, false);
      SoldAfter(s.db, call, w, p, true);
      if w.product.Some? {
        StandaloneExtends(s.history, s'.history[|s.history|], p);
      }
    }
  }

  lemma SettleKeepsSerial(s: State, c: ClientId, w: Writes, pc: Pc)
    requires Serial(s) && Settles(s, c, w, pc)
    ensures Serial(Settle(s, c, w, pc))
  {
    var s' := Settle(s, c, w, pc);
    if w.product.Some? {
      assert s'.history[..|s.history|] == s.history;
    }
  }

  lemma SettleKeepsTables(s: State, c: ClientId, w: Writes, pc: Pc)
    requires Tables(s) && Settles(s, c, w, pc)
    ensures Tables(Settle(s, c, w, pc))
  {
    ApplyKeepsRows(s.db, s.clients[c].call, w);
  }

  lemma SettleKeepsClient(s: State, c: ClientId, w: Writes, pc: Pc, d: ClientId)
    requires Settles(s, c, w, pc) && Ownership(s) && OrdersIndexed(s.db)
    requires d != c && ClientAt(s, d)
    ensures ClientAt(Settle(s, c, w, pc), d)
  {
    if d in s.clients {
      var s' := Settle(s, c, w, pc);
      SettleRespects(s, c, w, pc, d);
      ClientStays(s.db, s.history, s'.db, s'.history, s.clients[d]);
    }
  }

  lemma SettleKeepsClients(s: State, c: ClientId, w: Writes, pc: Pc)
    requires Settles(s, c, w, pc) && Ownership(s) && OrdersIndexed(s.db)
    requires Clients(s) && ClientAt(Settle(s, c, w, pc), c)
    ensures Clients(Settle(s, c, w, pc))
  {
    forall d | d in s.clients && d != c ensures ClientAt(Settle(s, c, w, pc), d) {
      assert ClientAt(s, d);
      SettleKeepsClient(s, c, w, pc, d);
    }
  }

  lemma SettleKeeps(s: State, c: ClientId, w: Writes, pc: Pc)
    requires Inv(s) && Settles(s, c, w, pc)
    requires s.clients[c].pc.Publish? ==> pc.Done?
    requires ClientAt(Settle(s, c, w, pc), c)
    ensures Inv(Settle(s, c, w, pc))
  {
    SettleKeepsTables(s, c, w, pc);
    SettleKeepsOwnership(s, c, w, pc);
    SettleKeepsClients(s, c, w, pc);
    SettleKeepsHistory(s, c, w, pc);
    SettleKeepsBalance(s, c, w, pc);
    SettleKeepsSerial(s, c, w, pc);
  }
}
