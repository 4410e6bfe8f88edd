/** The provider's order page, src/app/provider/orders/page.tsx: the fixed status
    flow and its partial successor, the status filter, the status controls of one
    order card, and the `updating` flag around a status change. */
module ProviderOrders {
  import opened Types

  datatype Order = Order(
    id: string,
    status: OrderStatus,
    total: int,
    address: string,
    createdAt: string,
    customerName: string)

  /** The forward path an order follows. CANCELLED is not on it. */
  const StatusFlow: seq<OrderStatus> := [Placed, Preparing, Ready, Delivered]

  /** `statusFlow.indexOf(s)`: the first position of `s`, or -1. */
  function IndexOf(flow: seq<OrderStatus>, s: OrderStatus): (i: int)
    ensures -1 <= i < |flow|
    ensures i == -1 <==> s !in flow
    ensures i >= 0 ==> flow[i] == s && forall j :: 0 <= j < i ==> flow[j] != s
  {
    if flow == [] then -1
    else if flow[0] == s then 0
    else
      var i := IndexOf(flow[1..], s);
      if i == -1 then -1 else i + 1
  }

  function FlowIndex(s: OrderStatus): int
  {
    IndexOf(StatusFlow, s)
  }

  /** `getNextStatus`: the next state on the flow, or null at its end or off it. Each
      step of the flow has its successor; DELIVERED and CANCELLED have none. */
  function NextStatus(current: OrderStatus): (next: Option<OrderStatus>)
    ensures next == match current
      case Placed => Some(Preparing)
      case Preparing => Some(Ready)
      case Ready => Some(Delivered)
      case _ => None
  {
    FlowIndexValues();
    var i := FlowIndex(current);
    if i == -1 || i == |StatusFlow| - 1 then None else Some(StatusFlow[i + 1])
  }

  lemma FlowIndexValues()
    ensures FlowIndex(Placed) == 0 && FlowIndex(Preparing) == 1
    ensures FlowIndex(Ready) == 2 && FlowIndex(Delivered) == 3
    ensures FlowIndex(Cancelled) == -1
  {
    assert StatusFlow[0] == Placed && StatusFlow[1] == Preparing;
    assert StatusFlow[2] == Ready && StatusFlow[3] == Delivered;
    assert Cancelled !in StatusFlow;
  }

  /** A successor is the very next flow position (no skipping) and never CANCELLED. */
  lemma NextStatusIsNextIndex(s: OrderStatus)
    ensures NextStatus(s).Some? ==>
      FlowIndex(s) >= 0 && FlowIndex(NextStatus(s).value) == FlowIndex(s) + 1
      && NextStatus(s).value != Cancelled
  {
    FlowIndexValues();
  }

  /** `getNextStatus` applied to its own result, k times. */
  function Advance(s: Option<OrderStatus>, k: nat): Option<OrderStatus>
    decreases k
  {
    if k == 0 then s
    else match s
      case None => None
      case Some(t) => Advance(NextStatus(t), k - 1)
  }

  /** k steps from flow position i land on position i + k, or on null past the end. */
  lemma {:induction false} AdvanceFromIndex(s: OrderStatus, k: nat)
    requires FlowIndex(s) >= 0
    ensures FlowIndex(s) + k < |StatusFlow| ==> Advance(Some(s), k) == Some(StatusFlow[FlowIndex(s) + k])
    ensures FlowIndex(s) + k >= |StatusFlow| ==> Advance(Some(s), k) == None
    decreases k
  {
    FlowIndexValues();
    if k > 0 {
      match NextStatus(s)
      case None =>
        AdvanceNone(k - 1);
      case Some(t) =>
        assert FlowIndex(t) == FlowIndex(s) + 1;
        AdvanceFromIndex(t, k - 1);
    }
  }

  lemma {:induction false} AdvanceNone(k: nat)
    ensures Advance(None, k) == None
  {
  }

  /** Following successors from any status reaches null after at most three real steps. */
  lemma AdvanceEndsWithinThree(s: OrderStatus)
    ensures Advance(Some(s), 4) == None
    ensures s == Placed ==> Advance(Some(s), 3) == Some(Delivered)
  {
    FlowIndexValues();
    if s == Cancelled {
      AdvanceNone(3);
    } else {
      AdvanceFromIndex(s, 4);
      AdvanceFromIndex(s, 3);
    }
  }

  // ------------------------------------------------------------ filter

  /** The page's filter: "ALL" or one status. */
  datatype StatusFilter = All | Only(status: OrderStatus)

  /** `orders.filter(o => o.status === s)`. */
  function Keep(orders: seq<Order>, s: OrderStatus): (r: seq<Order>)
    ensures |r| <= |orders|
    ensures forall i :: 0 <= i < |r| ==> r[i].status == s
  {
    if orders == [] then []
    else (if orders[0].status == s then [orders[0]] else []) + Keep(orders[1..], s)
  }

  /** `filteredOrders`. */
  function FilterOrders(orders: seq<Order>, f: StatusFilter): seq<Order>
  {
    match f
    case All => orders
    case Only(s) => Keep(orders, s)
  }

  /** The kept orders are exactly the input orders with the chosen status. */
  lemma {:induction false} KeepMembers(orders: seq<Order>, s: OrderStatus)
    ensures forall o :: o in Keep(orders, s) <==> o in orders && o.status == s
  {
    if orders != [] {
      KeepMembers(orders[1..], s);
      assert orders == [orders[0]] + orders[1..];
    }
  }

  /** Filtering distributes over concatenation, so it keeps the original order. */
  lemma {:induction false} KeepAppend(a: seq<Order>, b: seq<Order>, s: OrderStatus)
    ensures Keep(a + b, s) == Keep(a, s) + Keep(b, s)
  {
    if a == [] {
      assert a + b == b;
    } else {
      var x, t := a[0], a[1..];
      var h := if x.status == s then [x] else [];
      assert a == [x] + t && a + b == [x] + (t + b);
      KeepCons(x, t, s);
      KeepCons(x, t + b, s);
      KeepAppend(t, b, s);
      AppendAssoc(h, Keep(t, s), Keep(b, s));
    }
  }

  lemma AppendAssoc(x: seq<Order>, y: seq<Order>, z: seq<Order>)
    ensures x + (y + z) == (x + y) + z
  {
  }

  /** One step of the filter: the head is kept or dropped, then the rest is filtered. */
  lemma KeepCons(x: Order, rest: seq<Order>, s: OrderStatus)
    ensures Keep([x] + rest, s) == (if x.status == s then [x] else []) + Keep(rest, s)
  {
    assert ([x] + rest)[0] == x && ([x] + rest)[1..] == rest;
  }

  /** Filtering by the status every order already has changes nothing; filtering twice is filtering once. */
  lemma {:induction false} KeepIdempotent(orders: seq<Order>, s: OrderStatus)
    ensures Keep(Keep(orders, s), s) == Keep(orders, s)
  {
    if orders != [] {
      KeepIdempotent(orders[1..], s);
      var rest := Keep(orders[1..], s);
      if orders[0].status == s {
        var r := Keep(orders, s);
        assert r == [orders[0]] + rest;
        assert r[0] == orders[0] && r[1..] == rest;
        assert Keep(r, s) == [orders[0]] + Keep(rest, s);
      } else {
        assert Keep(orders, s) == [] + rest == rest;
      }
    }
  }

  /** "ALL" shows the list unchanged; a status shows only orders of that status. */
  lemma FilterSpec(orders: seq<Order>, f: StatusFilter)
    ensures f == All ==> FilterOrders(orders, f) == orders
    ensures f.Only? ==> forall o :: o in FilterOrders(orders, f) <==> o in orders && o.status == f.status
  {
    if f.Only? { KeepMembers(orders, f.status); }
  }

  // ------------------------------------------------------------ card controls

  /** The "Mark …" button of an order card: its label, or none. */
  function ForwardButton(o: Order): (caption: Option<string>)
    ensures caption.Some? <==> NextStatus(o.status).Some?
    ensures caption.Some? ==> caption.value == "Mark " + StatusName(NextStatus(o.status).value)
  {
    match NextStatus(o.status)
    case Some(t) => Some("Mark " + StatusName(t))
    case None => None
  }

  /** The forward button is shown for exactly the three non-final states of the flow. */
  lemma ForwardOfferedIff(o: Order)
    ensures ForwardButton(o).Some? <==> o.status in {Placed, Preparing, Ready}
  {
  }

  /** The options of the manual status select: the flow, then CANCELLED. The list does
      not depend on the order's current status. */
  function SelectOptions(): (opts: seq<OrderStatus>)
    ensures |opts| == 5
    ensures forall s: OrderStatus :: s in opts
    ensures forall i, j :: 0 <= i < j < |opts| ==> opts[i] != opts[j]
  {
    EveryStatusListed();
    StatusFlow + [Cancelled]
  }

  lemma EveryStatusListed()
    ensures forall s: OrderStatus :: s in StatusFlow + [Cancelled]
  {
    forall s: OrderStatus ensures s in StatusFlow + [Cancelled] {
      var opts := StatusFlow + [Cancelled];
      match s
      case Placed => assert opts[0] == s;
      case Preparing => assert opts[1] == s;
      case Ready => assert opts[2] == s;
      case Delivered => assert opts[3] == s;
      case Cancelled => assert opts[4] == s;
    }
  }

  // ------------------------------------------------------------ state

  /** What the orders endpoint answered: nothing usable (it threw), or a body. */
  datatype FetchResult = FetchThrew | Body(success: bool, data: seq<Order>)

  /** What the PATCH answered: ok, a rejection with its optional message, or a throw. */
  datatype PatchResult = PatchOk | PatchRejected(message: Option<string>) | PatchThrew

  datatype Notice = Success(text: string) | Error(text: string)

  datatype PatchRequest = PatchRequest(path: string, verb: string, status: OrderStatus)

  /** The list after a fetch: replaced on a successful body, kept otherwise. */
  function AfterFetch(orders: seq<Order>, r: FetchResult): (r': seq<Order>)
    ensures r.Body? && r.success ==> r' == r.data
    ensures !(r.Body? && r.success) ==> r' == orders
  {
    if r.Body? && r.success then r.data else orders
  }

  /** The toast of `fetchOrders`: only a fetch that threw shows one; an unsuccessful
      body is silent. */
  function FetchNotice(r: FetchResult): (n: Option<Notice>)
    ensures n.Some? <==> r.FetchThrew?
    ensures n.Some? ==> n.value == Error("Failed to fetch orders")
  {
    if r.FetchThrew? then Some(Error("Failed to fetch orders")) else None
  }

  /** The toast after a PATCH. */
  function PatchNotice(r: PatchResult, newStatus: OrderStatus): (n: Notice)
    ensures n.Success? <==> r.PatchOk?
    ensures r.PatchRejected? && r.message.Some? && r.message.value != "" ==> n == Error(r.message.value)
  {
    match r
    case PatchOk => Success("Order status updated to " + StatusName(newStatus))
    case PatchRejected(m) =>
      if m.Some? && m.value != "" then Error(m.value) else Error("Failed to update status")
    case PatchThrew => Error("Failed to update status")
  }

  class OrdersPage {
    var orders: seq<Order>
    var loading: bool
    var updating: Option<string>
    var filter: StatusFilter

    constructor ()
      ensures orders == [] && loading && updating == None && filter == All
    {
      orders := [];
      loading := true;
      updating := None;
      filter := All;
    }

    /** The cards on screen. */
    function Visible(): seq<Order>
      reads this
    {
      FilterOrders(orders, filter)
    }

    /** Both controls of an order card are disabled while that order is being updated. */
    predicate ControlsDisabled(o: Order)
      reads this
    {
      updating == Some(o.id)
    }

    method SetFilter(f: StatusFilter)
      modifies this`filter
      ensures filter == f
      ensures forall o :: o in Visible() <==> o in orders && (f.Only? ==> o.status == f.status)
    {
      filter := f;
      FilterSpec(orders, f);
    }

    /** `fetchOrders`: replaces the list on success, toasts when the fetch threw, and
        always ends loading. */
    method FetchOrders(r: FetchResult) returns (notice: Option<Notice>)
      modifies this`orders, this`loading
      ensures orders == AfterFetch(old(orders), r)
      ensures notice == FetchNotice(r)
      ensures !loading
    {
      notice := None;
      if r.Body? && r.success {
        orders := r.data;
      } else if r.FetchThrew? {
        notice := Some(Error("Failed to fetch orders"));
      }
      loading := false;
    }

    /** `updateStatus`: marks the order as updating, sends the PATCH, refetches on
        success, and clears the mark on every path. */
    method UpdateStatus(orderId: string, newStatus: OrderStatus, patch: PatchResult, refetch: FetchResult)
      returns (req: PatchRequest, notice: Notice, refetchNotice: Option<Notice>)
      modifies this`orders, this`loading, this`updating
      ensures req == PatchRequest("/api/provider/orders/" + orderId, "PATCH", newStatus)
      ensures notice == PatchNotice(patch, newStatus)
      ensures refetchNotice == if patch.PatchOk? then FetchNotice(refetch) else None
      ensures updating == None && forall o: Order :: !ControlsDisabled(o)
      ensures orders == if patch.PatchOk? then AfterFetch(old(orders), refetch) else old(orders)
      ensures loading == if patch.PatchOk? then false else old(loading)
    {
      updating := Some(orderId);
      req := PatchRequest("/api/provider/orders/" + orderId, "PATCH", newStatus);
      notice := PatchNotice(patch, newStatus);
      refetchNotice := None;
      if patch.PatchOk? {
        refetchNotice := FetchOrders(refetch);
      }
      updating := None;
    }
  }
}
