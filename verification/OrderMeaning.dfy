/**
 What a call answers and stores, said in terms of the request and the rows alone: letters, numbers and
 keys, with none of the functions that the services themselves compute.
 */
module OrderMeaning {
  import opened Wrappers
  import opened JsText
  import opened Fingerprint
  import opened OrderMachine
  import opened OrderInvariant
  import opened OrderAlone

  // ----- Requests

  /** Tab to carriage return, the spaces of Unicode, the line and paragraph separators, and the byte order mark. */
  const WHITE_SPACE: set<nat> :=
    {9, 10, 11, 12, 13, 32, 160, 5760, 8192, 8193, 8194, 8195, 8196, 8197, 8198, 8199, 8200, 8201, 8202,
     8232, 8233, 8239, 8287, 12288, 65279}

  predicate Shows(key: Text) { exists i :: 0 <= i < |key| && key[i] !in WHITE_SPACE }

  /** A positive quantity and amount, and a key with something in it. */
  predicate Acceptable(input: Input) { input.quantity > 0 && input.amount > 0 && Shows(input.key) }

  /** The order is for the same customer, product, quantity and amount; ids are the same in either case. */
  predicate SameRequest(o: Order, input: Input)
  {
    && SameText(o.customerId, input.customerId) && SameText(o.productId, input.productId)
    && o.quantity == input.quantity && o.amount == input.amount
  }

  /** The product that a call names, as written by the caller, and the quantity it wants. */
  function Wanted(call: Call): (Text, int)
  {
    match call
    case AtomicOrder(input, _) => (input.productId, input.quantity)
    case UnlockedOrder(input, _) => (input.productId, input.quantity)
    case LockedReserve(productId, quantity) => (productId, quantity)
    case OptimisticReserve(productId, quantity, _) => (productId, quantity)
  }

  lemma WhiteSpaceListed(c: CodeUnit)
    ensures IsWhiteSpace(c) <==> c in WHITE_SPACE
  {}

  lemma AcceptableIsValid(input: Input)
    ensures Acceptable(input) <==> ValidInput(input)
  {
    forall i | 0 <= i < |input.key| ensures IsWhiteSpace(input.key[i]) <==> input.key[i] in WHITE_SPACE {
      WhiteSpaceListed(input.key[i]);
    }
  }

  /** An order under the key is the answer exactly if it is for the same request; otherwise the key is refused. */
  lemma ResolveMeans(o: Order, input: Input)
    requires StoredFingerprint(o) == RowFingerprint(o)
    ensures Resolve(o, InputFingerprint(input)) == if SameRequest(o, input) then Returned(o) else Failed(KeyReused)
  {
    FingerprintsForgetCase(o.customerId, o.productId, o.quantity, o.amount,
                           input.customerId, input.productId, input.quantity, input.amount);
  }

  /** A stored fingerprint decides alone; a row without one is compared by its fields. */
  lemma StoredFingerprintDecides(o: Order, input: Input)
    ensures o.fingerprint.Some? ==>
              Resolve(o, InputFingerprint(input))
              == if o.fingerprint.value == FingerprintOrderRequest(input.customerId, input.productId, input.quantity, input.amount)
                 then Returned(o) else Failed(KeyReused)
    ensures o.fingerprint.None? ==>
              Resolve(o, InputFingerprint(input)) == if SameRequest(o, input) then Returned(o) else Failed(KeyReused)
  {
    FingerprintsForgetCase(o.customerId, o.productId, o.quantity, o.amount,
                           input.customerId, input.productId, input.quantity, input.amount);
  }

  lemma RowMeans(call: Call)
    requires IsOrder(call)
    ensures var o := RowOf(call); o.id == call.id && o.key == call.input.key && SameRequest(o, call.input)
  {
    LowerIsSame(call.input.customerId);
    LowerIsSame(call.input.productId);
  }

  /** The one product row that a caller's text names. */
  lemma NamedProduct(db: Database, call: Call, p: Text)
    requires DatabaseOk(db) && p in db.products
    ensures SameText(p, Wanted(call).0) <==> p == ProductOf(call)
  {
    LowerForgetsCase(p, Wanted(call).0);
  }

  // ----- An undisturbed call

  /** The stock goes down by the quantity and the version up by one. */
  predicate Debited(db: Database, p: Text, quantity: int, products: map<Text, Product>)
  {
    p in db.products && products == db.products[p := Product(db.products[p].stock - quantity, db.products[p].version + 1)]
  }

  /** A new order for the request is stored; an atomic call also takes the stock and writes the processing record. */
  predicate Creates(db: Database, call: Call, p: Text, result: Outcome, after: Database)
    requires IsOrder(call)
  {
    && result.Returned?
    && var o := result.order;
    && o.id == call.id && o.id !in db.orders && o.key == call.input.key && SameRequest(o, call.input) && o.productId == p
    && after.orders == db.orders[o.id := o]
    && (call.AtomicOrder? ==> Debited(db, p, call.input.quantity, after.products) && after.processing == db.processing + {o.id})
    && (call.UnlockedOrder? ==> after.products == db.products && after.processing == db.processing)
  }

  predicate Refuses(db: Database, e: Error, result: Outcome, after: Database) { result == Failed(e) && after == db }

  /** No order has the key yet. */
  ghost predicate FirstMeans(db: Database, call: Call, result: Outcome, after: Database)
    requires IsOrder(call)
  {
    && ((forall p :: p in db.products ==> !SameText(p, call.input.productId)) ==>
          Refuses(db, ProductNotFound, result, after))
    && (forall p :: p in db.products && SameText(p, call.input.productId) ==>
          if db.products[p].stock < call.input.quantity then Refuses(db, InsufficientInventory, result, after)
          else if call.id in db.orders then Refuses(db, DatabaseFailure, result, after)
          else Creates(db, call, p, result, after))
  }

  ghost predicate OrderMeans(db: Database, call: Call, result: Outcome, after: Database)
    requires IsOrder(call)
  {
    && (result == Failed(Validation) <==> !Acceptable(call.input))
    && (!Acceptable(call.input) ==> after == db)
    && (Acceptable(call.input) ==>
          && (forall id :: id in db.orders && db.orders[id].key == call.input.key ==>
                after == db && result == if SameRequest(db.orders[id], call.input) then Returned(db.orders[id]) else Failed(KeyReused))
          && ((forall id :: id in db.orders ==> db.orders[id].key != call.input.key) ==> FirstMeans(db, call, result, after)))
  }

  ghost predicate ReservationMeans(db: Database, call: Call, result: Outcome, after: Database)
  {
    var (productId, quantity) := Wanted(call);
    && (result == Failed(Validation) <==> quantity <= 0)
    && (quantity <= 0 ==> after == db)
    && (quantity > 0 ==>
          && ((forall p :: p in db.products ==> !SameText(p, productId)) ==> Refuses(db, ProductNotFound, result, after))
          && (forall p :: p in db.products && SameText(p, productId) ==>
                if db.products[p].stock < quantity then Refuses(db, InsufficientInventory, result, after)
                else result == Reserved(Product(db.products[p].stock - quantity, db.products[p].version + 1))
                     && Debited(db, p, quantity, after.products) && after == db.(products := after.products)))
  }

  /** An order call whose key is new answers as its reservation does, unless its id is taken. */
  lemma NewKeyAnswers(db: Database, call: Call)
    requires OrdersIndexed(db) && IsOrder(call) && ValidInput(call.input) && !KeyTaken(db, call.input.key)
    ensures var p, quantity := ProductOf(call), call.input.quantity;
            Ordering(db, call) == if p !in db.products then Failed(ProductNotFound)
                                  else if db.products[p].stock < quantity then Failed(InsufficientInventory)
                                  else if call.id in db.orders then Failed(DatabaseFailure)
                                  else Returned(RowOf(call))
  {}

  lemma NewOrderStored(db: Database, call: Call)
    requires OrdersIndexed(db) && IsOrder(call) && ValidInput(call.input) && !KeyTaken(db, call.input.key)
    requires Ordering(db, call).Returned? && call.id !in db.orders
    requires ProductOf(call) in db.products && db.products[ProductOf(call)].stock >= call.input.quantity
    ensures Creates(db, call, ProductOf(call), Returned(RowOf(call)), AfterOrdering(db, call))
  {
    RowMeans(call);
  }

  lemma NewOrderMeans(db: Database, call: Call, result: Outcome, after: Database)
    requires DatabaseOk(db) && IsOrder(call) && Acceptable(call.input) && Sequential(db, call, result, after)
    requires !KeyTaken(db, call.input.key)
    ensures FirstMeans(db, call, result, after)
  {
    AcceptableIsValid(call.input);
    NewKeyAnswers(db, call);
    forall p | p in db.products ensures SameText(p, call.input.productId) <==> p == ProductOf(call) {
      NamedProduct(db, call, p);
    }
    if result.Returned? {
      NewOrderStored(db, call);
    }
  }

  lemma RepeatedOrderMeans(db: Database, call: Call, result: Outcome, after: Database, id: Text)
    requires DatabaseOk(db) && IsOrder(call) && Acceptable(call.input) && Sequential(db, call, result, after)
    requires id in db.orders && db.orders[id].key == call.input.key
    ensures after == db && result == if SameRequest(db.orders[id], call.input) then Returned(db.orders[id]) else Failed(KeyReused)
  {
    AcceptableIsValid(call.input);
    ResolveMeans(db.orders[id], call.input);
    assert KeyTaken(db, call.input.key);
  }

  /** The sequential meaning of an order call, in plain terms. */
  lemma SequentialMeans(db: Database, call: Call, result: Outcome, after: Database)
    requires DatabaseOk(db) && IsOrder(call) && Sequential(db, call, result, after)
    ensures OrderMeans(db, call, result, after)
  {
    AcceptableIsValid(call.input);
    if Acceptable(call.input) {
      forall id | id in db.orders && db.orders[id].key == call.input.key
        ensures after == db
        ensures result == if SameRequest(db.orders[id], call.input) then Returned(db.orders[id]) else Failed(KeyReused)
      {
        RepeatedOrderMeans(db, call, result, after, id);
      }
      if forall id :: id in db.orders ==> db.orders[id].key != call.input.key {
        NewOrderMeans(db, call, result, after);
      }
      ValidIsNotRefused(db, call);
    }
  }

  lemma ValidIsNotRefused(db: Database, call: Call)
    requires OrdersIndexed(db) && IsOrder(call) && ValidInput(call.input)
    ensures Ordering(db, call) != Failed(Validation)
  {}

  lemma SequentialReservationMeans(db: Database, call: Call, result: Outcome, after: Database)
    requires DatabaseOk(db) && !IsOrder(call)
    requires result == Reservation(db, ProductOf(call), QuantityOf(call))
    requires after == AfterReservation(db, ProductOf(call), QuantityOf(call))
    ensures ReservationMeans(db, call, result, after)
  {
    forall p | p in db.products ensures SameText(p, Wanted(call).0) <==> p == ProductOf(call) {
      NamedProduct(db, call, p);
    }
  }

  /** Repeating an order that has just been created answers that order and changes nothing. */
  lemma RepeatAnswersTheOrder(db: Database, call: Call, result: Outcome, after: Database, again: Call, result': Outcome, after': Database)
    requires IsOrder(call) && IsOrder(again) && again.input == call.input && Acceptable(call.input)
    requires OrderMeans(db, call, result, after) && result.Returned?
    requires OrderMeans(after, again, result', after')
    requires forall id :: id in db.orders ==> db.orders[id].id == id
    ensures result' == result && after' == after
  {
    if exists id :: id in db.orders && db.orders[id].key == call.input.key {
      var id :| id in db.orders && db.orders[id].key == call.input.key;
      assert after.orders[id].key == call.input.key;
    } else if exists p :: p in db.products && SameText(p, call.input.productId) {
      var p :| p in db.products && SameText(p, call.input.productId);
      assert FirstMeans(db, call, result, after);
      assert Creates(db, call, p, result, after);
      assert after.orders[result.order.id].key == call.input.key;
    }
  }
}
