/** Concrete runs of the model on an excerpt of the seed data of `constants.ts` (money in
    centavos): approvals of a seeded and of a new order, and the offline session. */
module Scenarios {
  import opened Wrappers
  import opened Types
  import opened Store
  import opened Lists
  import Navigation
  import Inventory

  const HORIZON: Project := Project(
    "p1", "c1", "Edifício Horizon", "Rua Augusta, 500, SP", IN_PROGRESS, 500000000, 215000000,
    "2023-06-01", "2024-12-01", 45, "https://picsum.photos/800/600?random=1")

  const CEMENT_BAGS: StockItem := StockItem("s1", "p1", "Sacos de Cimento 50kg", 120, 50, "un", "2023-10-25")
  const BRICKS: StockItem := StockItem("s2", "p1", "Tijolo Baiano", 400, 1000, "milheiro", "2023-10-26")
  const SAND: StockItem := StockItem("s3", "p2", "Areia Média", 2, 5, "m³", "2024-02-01")

  /** The seeded brick order; its total estimate (R$ 1.600) is not its quantity times its
      unit price (2000 × R$ 800). */
  const BRICK_ORDER: PurchaseOrder := PurchaseOrder(
    "po1", "p1", "u2", "Tijolo Baiano", 2000, 80000, 160000, OrderStatus.PENDING, "2023-10-27")

  /** An excerpt of the seed data, not all of it: the Horizon project, the three stock rows
      and the one purchase order, with no clients, transactions or diary entries. */
  const SEED: Collections := Collections([], [HORIZON], [], [CEMENT_BAGS, BRICKS, SAND], [BRICK_ORDER], [])

  /** Approving the seeded brick order books its recorded total, not quantity × price, and
      adds the 2000 bricks to the existing brick row, which is then above its minimum. */
  lemma ApproveSeededBricks(txAt: Instant, stockAt: Instant)
    ensures var r := Approve(SEED, "po1", txAt, stockAt);
      && BRICK_ORDER.totalEstimate != BRICK_ORDER.quantity * BRICK_ORDER.unitPriceEstimate
      && r.transactions[0].amount == 160000
      && r.stock == [CEMENT_BAGS, BRICKS.(quantity := 2400), SAND]
      && !Inventory.LowStock(r.stock[1])
      && r.projects == [HORIZON]
  {
    assert SameItem(BRICK_ORDER)(BRICKS);
    assert !SameItem(BRICK_ORDER)(CEMENT_BAGS);
    assert FirstIndex(SEED.stock, SameItem(BRICK_ORDER)) == Some(1);
    ApproveKnownOrder(SEED, "po1", txAt, stockAt, 0);
    var r := Approve(SEED, "po1", txAt, stockAt);
    assert r.stock[1] == BRICKS.(quantity := 2400);
  }

  /** A request for 100 bags of `Cimento` at R$ 32,50 for the Horizon project. */
  const CEMENT_FORM: Inventory.OrderForm := Inventory.OrderForm(Some("p1"), Some("Cimento"), 100, 3250)

  /** Requesting and approving the cement: an expense of R$ 3.250 paid for the project, a
      new stock row of 100 units for (project, `Cimento`), and the project's `spent`
      untouched. */
  lemma RequestAndApproveCement(user: Option<User>, stamp: string, now: string, txAt: Instant, stockAt: Instant)
    ensures var po := Inventory.CreateOrder(CEMENT_FORM, user, stamp, now).request.value;
      var r := Approve(SEED.(purchaseOrders := [po] + SEED.purchaseOrders), po.id, txAt, stockAt);
      && r.transactions[0].description == "Compra: Cimento"
      && r.transactions[0].amount == 325000
      && r.transactions[0].status == TxStatus.PAID
      && |r.stock| == 4
      && r.stock[3].projectId == "p1" && r.stock[3].name == "Cimento" && r.stock[3].quantity == 100
      && r.projects == SEED.projects && r.projects[0].spent == 215000000
  {
    var po := Inventory.CreateOrder(CEMENT_FORM, user, stamp, now).request.value;
    ApproveCementOrder(po, txAt, stockAt);
  }

  /** The approval half of the cement scenario, for any order of that item and project. */
  lemma ApproveCementOrder(po: PurchaseOrder, txAt: Instant, stockAt: Instant)
    requires po.projectId == "p1" && po.itemName == "Cimento"
    ensures var r := Approve(SEED.(purchaseOrders := [po] + SEED.purchaseOrders), po.id, txAt, stockAt);
      && r.transactions[0].description == "Compra: Cimento"
      && r.transactions[0].amount == po.totalEstimate
      && r.transactions[0].status == TxStatus.PAID
      && r.stock == SEED.stock + [NewStockRow(po, stockAt)]
      && r.projects == SEED.projects
  {
    var d := SEED.(purchaseOrders := [po] + SEED.purchaseOrders);
    ApproveKnownOrder(d, po.id, txAt, stockAt, 0);
    assert d.stock == [CEMENT_BAGS, BRICKS, SAND];
    assert |po.itemName| == 7;
    forall i | 0 <= i < |d.stock|
      ensures !SameItem(po)(d.stock[i])
    {
      assert |d.stock[i].name| != 7;
    }
  }

  /** With no backend a session never starts: the provider begins without a user, every
      login attempt fails, and the layout shows only the login screen. */
  method OfflineSession(seed: Collections, email: string, password: string)
    returns (login: Outcome<string>, screen: Navigation.Screen)
    ensures login.Fail?
    ensures screen == Navigation.AuthScreen
  {
    var app := new AppStore(seed);
    login := app.Login(email, password);
    screen := Navigation.Render(app.currentUser, Navigation.INITIAL_VIEW);
  }
}
