/**
 * The Postgres tables the services touch, as in-memory rows: `payments`, `orders` and
 * `inventory_reservations`. Each statement the services issue is a function on the
 * rows (its WHERE clause and SET list); `Database` holds the rows, the open
 * transaction's starting point and the pool clients checked out.
 */
module Tables {
  import opened Wrappers
  import opened Js

  datatype PaymentStatus = PaymentPending | Succeeded | Failed

  /** A `payments` row; the columns keep the values the statement was given. */
  datatype Payment = Payment(orderId: Value, userId: Value, amount: Value, status: PaymentStatus, messageId: Value)

  datatype OrderStatus = OrderPending | Confirmed | Cancelled

  datatype Order = Order(id: int, userId: Value, showId: Value, quantity: Value, status: OrderStatus)

  datatype ReservationStatus = Reserved | Committed | Expired

  datatype Reservation = Reservation(orderId: int, status: ReservationStatus)

  /** The contents of the three tables. */
  datatype Snapshot = Snapshot(payments: seq<Payment>, orders: seq<Order>, reservations: seq<Reservation>)

  // ---------------------------------------------------------------- statements on rows

  /** `SELECT * FROM payments WHERE order_id = $1`, in table order. */
  function PaymentsOf(ps: seq<Payment>, orderId: int): (rows: seq<Payment>)
    ensures forall p :: p in rows <==> p in ps && p.orderId == Num(orderId)
  {
    if ps == [] then []
    else (if ps[0].orderId == Num(orderId) then [ps[0]] else []) + PaymentsOf(ps[1..], orderId)
  }

  /** `UPDATE payments SET status = s WHERE order_id = $1` */
  function SetPaymentStatus(ps: seq<Payment>, orderId: int, s: PaymentStatus): (r: seq<Payment>)
    ensures |r| == |ps|
    ensures forall i :: 0 <= i < |ps| && ps[i].orderId == Num(orderId) ==> r[i] == ps[i].(status := s)
    ensures forall i :: 0 <= i < |ps| && ps[i].orderId != Num(orderId) ==> r[i] == ps[i]
  {
    if ps == [] then []
    else [if ps[0].orderId == Num(orderId) then ps[0].(status := s) else ps[0]]
         + SetPaymentStatus(ps[1..], orderId, s)
  }

  /** The rows of `orders` with primary key `id`. */
  function OrdersWithId(os: seq<Order>, id: int): (rows: seq<Order>)
    ensures forall o :: o in rows <==> o in os && o.id == id
  {
    if os == [] then []
    else (if os[0].id == id then [os[0]] else []) + OrdersWithId(os[1..], id)
  }

  /** `UPDATE orders SET status = s WHERE id = $1` */
  function SetOrderStatus(os: seq<Order>, id: int, s: OrderStatus): (r: seq<Order>)
    ensures |r| == |os|
    ensures forall i :: 0 <= i < |os| && os[i].id == id ==> r[i] == os[i].(status := s)
    ensures forall i :: 0 <= i < |os| && os[i].id != id ==> r[i] == os[i]
  {
    if os == [] then []
    else [if os[0].id == id then os[0].(status := s) else os[0]] + SetOrderStatus(os[1..], id, s)
  }

  /** `UPDATE inventory_reservations SET status = s WHERE order_id = $1 AND status = 'RESERVED'` */
  function SetReservedStatus(rs: seq<Reservation>, orderId: int, s: ReservationStatus): (r: seq<Reservation>)
    ensures |r| == |rs|
    ensures forall i :: 0 <= i < |rs| && rs[i] == Reservation(orderId, Reserved) ==> r[i] == Reservation(orderId, s)
    ensures forall i :: 0 <= i < |rs| && rs[i] != Reservation(orderId, Reserved) ==> r[i] == rs[i]
  {
    if rs == [] then []
    else [if rs[0] == Reservation(orderId, Reserved) then Reservation(orderId, s) else rs[0]]
         + SetReservedStatus(rs[1..], orderId, s)
  }

  /** Some row already carries message id `mid`. */
  predicate HasMessageId(ps: seq<Payment>, mid: Value) {
    exists i :: 0 <= i < |ps| && ps[i].messageId == mid
  }

  /** `INSERT INTO payments ... ON CONFLICT (message_id) DO NOTHING` */
  function InsertPayment(ps: seq<Payment>, p: Payment): (r: seq<Payment>)
    ensures HasMessageId(ps, p.messageId) ==> r == ps
    ensures !HasMessageId(ps, p.messageId) ==> r == ps + [p]
  {
    if HasMessageId(ps, p.messageId) then ps else ps + [p]
  }

  // ---------------------------------------------------------------- table invariants

  /** The unique key `ON CONFLICT (message_id)` relies on. */
  predicate UniqueMessageIds(ps: seq<Payment>) {
    forall i, j :: 0 <= i < j < |ps| ==> ps[i].messageId != ps[j].messageId
  }

  /** `orders.id` is a primary key drawn from a sequence whose next value is `next`. */
  predicate OrderIdsBelow(os: seq<Order>, next: int) {
    (forall i, j :: 0 <= i < j < |os| ==> os[i].id != os[j].id) &&
    (forall i :: 0 <= i < |os| ==> os[i].id < next)
  }

  predicate Consistent(t: Snapshot, next: int) {
    UniqueMessageIds(t.payments) && OrderIdsBelow(t.orders, next)
  }

  // ---------------------------------------------------------------- properties

  /** Inserting keeps the message ids unique, and a second insert of the same row adds
      nothing. */
  lemma {:induction false} InsertPaymentKeepsUnique(ps: seq<Payment>, p: Payment)
    requires UniqueMessageIds(ps)
    ensures UniqueMessageIds(InsertPayment(ps, p))
    ensures HasMessageId(InsertPayment(ps, p), p.messageId)
    ensures InsertPayment(InsertPayment(ps, p), p) == InsertPayment(ps, p)
  {
    if !HasMessageId(ps, p.messageId) {
      var r := ps + [p];
      assert r[|ps|].messageId == p.messageId;
      forall i, j | 0 <= i < j < |r|
        ensures r[i].messageId != r[j].messageId
      {
        if j == |ps| {
          assert ps[i].messageId != p.messageId;
        }
      }
    }
  }

  /** A status update keeps every message id where it was. */
  lemma SetPaymentStatusKeepsUnique(ps: seq<Payment>, orderId: int, s: PaymentStatus)
    requires UniqueMessageIds(ps)
    ensures UniqueMessageIds(SetPaymentStatus(ps, orderId, s))
  {
    var r := SetPaymentStatus(ps, orderId, s);
    assert forall i :: 0 <= i < |ps| ==> r[i].messageId == ps[i].messageId;
  }

  /** A status update keeps every order id where it was. */
  lemma SetOrderStatusKeepsIds(os: seq<Order>, id: int, s: OrderStatus, next: int)
    requires OrderIdsBelow(os, next)
    ensures OrderIdsBelow(SetOrderStatus(os, id, s), next)
  {
    var r := SetOrderStatus(os, id, s);
    assert forall i :: 0 <= i < |os| ==> r[i].id == os[i].id;
  }

  /** After the update every payment of the order has the new status. */
  lemma {:induction false} UpdatedPaymentsHaveStatus(ps: seq<Payment>, orderId: int, s: PaymentStatus)
    ensures forall p :: p in PaymentsOf(SetPaymentStatus(ps, orderId, s), orderId) ==> p.status == s
    ensures |PaymentsOf(SetPaymentStatus(ps, orderId, s), orderId)| == |PaymentsOf(ps, orderId)|
    decreases |ps|
  {
    if ps != [] {
      var r := SetPaymentStatus(ps, orderId, s);
      UpdatedPaymentsHaveStatus(ps[1..], orderId, s);
      assert r[1..] == SetPaymentStatus(ps[1..], orderId, s);
    }
  }

  // ---------------------------------------------------------------- the database

  /** The tables, changed in place by each statement. `tx` is the contents at the open
      transaction's BEGIN, to which a ROLLBACK (or the end of a failed transaction)
      returns; `nextOrderId` is the `orders.id` sequence, which a rollback does not
      rewind; `clientsOut` counts the pool clients checked out and not released. */
  class Database {
    var payments: seq<Payment>
    var orders: seq<Order>
    var reservations: seq<Reservation>
    var nextOrderId: int
    var tx: Option<Snapshot>
    var clientsOut: nat

    function Contents(): Snapshot
      reads this
    {
      Snapshot(payments, orders, reservations)
    }

    ghost predicate Valid()
      reads this
    {
      Consistent(Contents(), nextOrderId) && (tx.Some? ==> Consistent(tx.value, nextOrderId))
    }

    constructor ()
      ensures Valid() && Contents() == Snapshot([], [], []) && tx == None && clientsOut == 0
    {
      payments, orders, reservations := [], [], [];
      nextOrderId, tx, clientsOut := 1, None, 0;
    }

    /** `pool.connect()` */
    method Connect()
      modifies this
      ensures clientsOut == old(clientsOut) + 1
      ensures Contents() == old(Contents()) && tx == old(tx) && nextOrderId == old(nextOrderId)
    {
      clientsOut := clientsOut + 1;
    }

    /** `client.release()` */
    method Release()
      requires clientsOut > 0
      modifies this
      ensures clientsOut == old(clientsOut) - 1
      ensures Contents() == old(Contents()) && tx == old(tx) && nextOrderId == old(nextOrderId)
    {
      clientsOut := clientsOut - 1;
    }

    /** `BEGIN` */
    method Begin()
      requires Valid()
      modifies this
      ensures Valid() && tx == Some(old(Contents()))
      ensures Contents() == old(Contents()) && clientsOut == old(clientsOut) && nextOrderId == old(nextOrderId)
    {
      tx := Some(Contents());
    }

    /** `COMMIT` */
    method Commit()
      requires Valid()
      modifies this
      ensures Valid() && tx == None
      ensures Contents() == old(Contents()) && clientsOut == old(clientsOut) && nextOrderId == old(nextOrderId)
    {
      tx := None;
    }

    /** `ROLLBACK`: back to the contents at BEGIN; outside a transaction it changes nothing. */
    method Rollback()
      requires Valid()
      modifies this
      ensures Valid() && tx == None
      ensures Contents() == (if old(tx).Some? then old(tx).value else old(Contents()))
      ensures clientsOut == old(clientsOut) && nextOrderId == old(nextOrderId)
    {
      if tx.Some? {
        payments, orders, reservations := tx.value.payments, tx.value.orders, tx.value.reservations;
      }
      tx := None;
    }

    /** `SELECT * FROM payments WHERE order_id = $1` */
    method SelectPayments(orderId: int) returns (rows: seq<Payment>)
      ensures rows == PaymentsOf(payments, orderId)
    {
      rows := PaymentsOf(payments, orderId);
    }

    /** `UPDATE payments SET status = s WHERE order_id = $1` */
    method UpdatePayments(orderId: int, s: PaymentStatus)
      requires Valid()
      modifies this
      ensures Valid()
      ensures Contents() == old(Contents()).(payments := SetPaymentStatus(old(payments), orderId, s))
      ensures tx == old(tx) && clientsOut == old(clientsOut) && nextOrderId == old(nextOrderId)
    {
      SetPaymentStatusKeepsUnique(payments, orderId, s);
      payments := SetPaymentStatus(payments, orderId, s);
    }

    /** `UPDATE orders SET status = s WHERE id = $1 RETURNING ...`: the rows returned are
        the updated ones. */
    method UpdateOrders(id: int, s: OrderStatus) returns (rows: seq<Order>)
      requires Valid()
      modifies this
      ensures Valid()
      ensures Contents() == old(Contents()).(orders := SetOrderStatus(old(orders), id, s))
      ensures rows == OrdersWithId(orders, id)
      ensures tx == old(tx) && clientsOut == old(clientsOut) && nextOrderId == old(nextOrderId)
    {
      SetOrderStatusKeepsIds(orders, id, s, nextOrderId);
      orders := SetOrderStatus(orders, id, s);
      rows := OrdersWithId(orders, id);
    }

    /** `UPDATE inventory_reservations SET status = s WHERE order_id = $1 AND status = 'RESERVED'` */
    method UpdateReservations(orderId: int, s: ReservationStatus)
      requires Valid()
      modifies this
      ensures Valid()
      ensures Contents() == old(Contents()).(reservations := SetReservedStatus(old(reservations), orderId, s))
      ensures tx == old(tx) && clientsOut == old(clientsOut) && nextOrderId == old(nextOrderId)
    {
      reservations := SetReservedStatus(reservations, orderId, s);
    }

    /** `INSERT INTO payments ... ON CONFLICT (message_id) DO NOTHING` */
    method InsertPaymentRow(p: Payment) returns (inserted: bool)
      requires Valid()
      modifies this
      ensures Valid()
      ensures Contents() == old(Contents()).(payments := InsertPayment(old(payments), p))
      ensures inserted <==> !HasMessageId(old(payments), p.messageId)
      ensures tx == old(tx) && clientsOut == old(clientsOut) && nextOrderId == old(nextOrderId)
    {
      InsertPaymentKeepsUnique(payments, p);
      inserted := !HasMessageId(payments, p.messageId);
      payments := InsertPayment(payments, p);
    }

    /** `INSERT INTO orders (user_id, show_id, quantity, status) VALUES (...) RETURNING id`:
        the new row takes the sequence's next value. */
    method InsertOrder(userId: Value, showId: Value, quantity: Value, status: OrderStatus) returns (id: int)
      requires Valid()
      modifies this
      ensures Valid()
      ensures id == old(nextOrderId) && nextOrderId == id + 1
      ensures Contents() == old(Contents()).(orders := old(orders) + [Order(id, userId, showId, quantity, status)])
      ensures forall i :: 0 <= i < |old(orders)| ==> old(orders)[i].id != id
      ensures tx == old(tx) && clientsOut == old(clientsOut)
    {
      id := nextOrderId;
      orders := orders + [Order(id, userId, showId, quantity, status)];
      nextOrderId := nextOrderId + 1;
    }
  }
}
