/** The decisions of the stock and purchasing screen (`Inventory.tsx`): the purchase
    request form, the low-stock badge, the approve button and the order status label. */
module Inventory {
  import opened Wrappers
  import opened Types
  import opened Forms
  import Store
  import Navigation

  /** `Partial<PurchaseOrder>` as the request form holds it; quantity and unit price always
      hold a number. */
  datatype OrderForm = OrderForm(
    projectId: Option<string>, itemName: Option<string>, quantity: int, unitPriceEstimate: int)

  /** The form's starting state, and the state it is reset to after a request. */
  const BLANK_ORDER_FORM: OrderForm := OrderForm(None, None, 1, 0)

  /** What a submit does: the request passed to `requestPurchase`, if any, and the form
      afterwards. */
  datatype OrderSubmit = OrderSubmit(request: Option<PurchaseOrder>, form: OrderForm)

  /** `currentUser?.id || 'unknown'` */
  function RequesterId(user: Option<User>): (id: string)
    ensures user.Some? && user.value.id != "" ==> id == user.value.id
    ensures user.None? || user.value.id == "" ==> id == "unknown"
  {
    if user.Some? && user.value.id != "" then user.value.id else "unknown"
  }

  /** `handleCreatePO`: with an item and a project chosen, a pending request for the form's
      quantity at the form's unit price, whose total is their product, is passed on and
      the form is reset; otherwise nothing happens and the form stays as it is. */
  function CreateOrder(form: OrderForm, user: Option<User>, stamp: string, now: string): (r: OrderSubmit)
    ensures r.request.None? <==> !Present(form.itemName) || !Present(form.projectId)
    ensures r.request.None? ==> r.form == form
    ensures r.request.Some? ==> r.form == BLANK_ORDER_FORM
    ensures r.request.Some? ==>
      var po := r.request.value;
      && po.id == "po-" + stamp
      && po.projectId == form.projectId.value && po.itemName == form.itemName.value
      && po.requesterId == RequesterId(user)
      && po.quantity == form.quantity && po.unitPriceEstimate == form.unitPriceEstimate
      && po.totalEstimate == po.quantity * po.unitPriceEstimate
      && po.status == OrderStatus.PENDING
      && po.date == now
  {
    if Present(form.itemName) && Present(form.projectId) then
      OrderSubmit(Some(PurchaseOrder(
        "po-" + stamp, form.projectId.value, RequesterId(user), form.itemName.value,
        form.quantity, form.unitPriceEstimate, form.quantity * form.unitPriceEstimate,
        OrderStatus.PENDING, now)), BLANK_ORDER_FORM)
    else
      OrderSubmit(None, form)
  }

  /** Requesting a purchase and then approving it books an expense of exactly quantity
      times unit price for the order's project, and the order becomes purchased. */
  lemma RequestThenApprove(d: Store.Collections, form: OrderForm, user: Option<User>,
                           stamp: string, now: string, txAt: Store.Instant, stockAt: Store.Instant)
    requires Present(form.itemName) && Present(form.projectId)
    ensures var po := CreateOrder(form, user, stamp, now).request.value;
      var r := Store.Approve(d.(purchaseOrders := [po] + d.purchaseOrders), po.id, txAt, stockAt);
      && r.transactions[0].amount == form.quantity * form.unitPriceEstimate
      && r.transactions[0].kind == EXPENSE
      && r.transactions[0].projectId == Some(form.projectId.value)
      && r.transactions[1..] == d.transactions
      && r.purchaseOrders[0].status == OrderStatus.PURCHASED
  {
    var po := CreateOrder(form, user, stamp, now).request.value;
    var d' := d.(purchaseOrders := [po] + d.purchaseOrders);
    Store.ApproveKnownOrder(d', po.id, txAt, stockAt, 0);
  }

  /** The low-stock badge: at or below the minimum. */
  predicate LowStock(item: StockItem) {
    item.quantity <= item.minQuantity
  }

  /** A stock row created by an approval is flagged low exactly when fewer than or as many
      as ten units were bought, ten being the minimum such a row gets. */
  lemma NewRowLowStock(po: PurchaseOrder, at: Store.Instant)
    ensures LowStock(Store.NewStockRow(po, at)) <==> po.quantity <= 10
  {
  }

  /** The approve button: a pending order, seen by an ADMIN or FINANCE user. */
  predicate ShowApprove(po: PurchaseOrder, user: Option<User>) {
    po.status == OrderStatus.PENDING && user.Some? && (user.value.role == ADMIN || user.value.role == FINANCE)
  }

  /** An approval turns the button off for that order: it is no longer pending. */
  lemma ApprovalHidesButton(d: Store.Collections, poId: string, txAt: Store.Instant, stockAt: Store.Instant,
                            user: Option<User>, i: nat)
    requires i < |d.purchaseOrders| && d.purchaseOrders[i].id == poId
    ensures !ShowApprove(Store.Approve(d, poId, txAt, stockAt).purchaseOrders[i], user)
  {
  }

  /** The button is offered to FINANCE too, but FINANCE cannot open the inventory screen:
      through a gated layout only an ADMIN ever sees it. */
  lemma OnlyAdminApproves(l: Navigation.Layout, po: PurchaseOrder)
    requires Navigation.Gated(l)
    requires Navigation.Render(l.user, l.view) == Navigation.InventoryModule
    requires ShowApprove(po, l.user)
    ensures l.user.value.role == ADMIN
  {
    Navigation.GatedRendersVisibleModule(l);
  }

  /** The status label: purchased and approved orders say so, every other one (rejected
      included) reads as pending. */
  function OrderStatusLabel(s: OrderStatus): (text: string)
    ensures text == "Pendente" <==> s == OrderStatus.PENDING || s == REJECTED
    ensures text == "Aprovado" <==> s == APPROVED
    ensures text == "Comprado" <==> s == PURCHASED
  {
    match s
    case PURCHASED => "Comprado"
    case APPROVED => "Aprovado"
    case _ => "Pendente"
  }
}
