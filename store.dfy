/** The in-memory domain store of `AppContext.tsx` on the path it takes when no backend is
    configured (`supabase` is null): six collections that the CRUD operations and the
    purchase-order approval replace step by step. Every update is a `filter`, a `map` by id
    or an append/prepend; the pure functions below are those list updates, and the methods
    of `AppStore` apply them to its fields. */
module Store {
  import opened Wrappers
  import opened Types
  import opened Lists
  import Strings

  /** One reading of the browser clock: `Date.now()` as text and `new Date().toISOString()`. */
  datatype Instant = Instant(stamp: string, iso: string)

  /** The six collections: the abstract value of an `AppStore`. */
  datatype Collections = Collections(
    clients: seq<Client>, projects: seq<Project>, transactions: seq<Transaction>,
    stock: seq<StockItem>, purchaseOrders: seq<PurchaseOrder>, logs: seq<DailyLog>)

  function ClientKey(c: Client): string { c.id }
  function ProjectKey(p: Project): string { p.id }
  function TransactionKey(t: Transaction): string { t.id }
  function StockKey(s: StockItem): string { s.id }
  function OrderKey(o: PurchaseOrder): string { o.id }
  function LogKey(l: DailyLog): string { l.id }

  /** `x => x.id === id` */
  function HasKey<T>(key: T -> string, id: string): T -> bool {
    (x: T) => key(x) == id
  }

  /** No two entries share an id. */
  ghost predicate UniqueKeys<T>(s: seq<T>, key: T -> string) {
    forall i, j :: 0 <= i < j < |s| ==> key(s[i]) != key(s[j])
  }

  // ---------------------------------------------------------------- remove and update

  /** `prev.filter(x => x.id !== id)`: drops every entry with that id and keeps the rest. */
  function RemoveById<T(==)>(s: seq<T>, id: string, key: T -> string): (r: seq<T>)
    ensures |r| <= |s|
    ensures forall i :: 0 <= i < |r| ==> key(r[i]) != id
  {
    Filter(s, (x: T) => key(x) != id)
  }

  /** Removal keeps exactly the entries with another id. */
  lemma RemoveKeepsOthers<T>(s: seq<T>, id: string, key: T -> string, x: T)
    ensures x in RemoveById(s, id, key) <==> x in s && key(x) != id
  {
    FilterMembers(s, (y: T) => key(y) != id, x);
  }

  /** Removal keeps the order of the entries it keeps. */
  lemma RemoveKeepsOrder<T>(s: seq<T>, id: string, key: T -> string)
    ensures Subseq(RemoveById(s, id, key), s)
  {
    FilterSubseq(s, (x: T) => key(x) != id);
  }

  /** Removing an id no entry carries changes nothing. */
  lemma RemoveUnknownIsNoop<T>(s: seq<T>, id: string, key: T -> string)
    requires forall i :: 0 <= i < |s| ==> key(s[i]) != id
    ensures RemoveById(s, id, key) == s
  {
    FilterKeepsAll(s, (x: T) => key(x) != id);
  }

  /** Removal shortens the list by exactly the number of entries carrying the id; with
      unique ids, by one when the id is present. */
  lemma RemoveCount<T>(s: seq<T>, id: string, key: T -> string)
    ensures |RemoveById(s, id, key)| + |Filter(s, HasKey(key, id))| == |s|
  {
    FilterPartition(s, (x: T) => key(x) != id, HasKey(key, id));
  }

  /** `prev.map(y => y.id === x.id ? x : y)`: replaces exactly the entries whose id is
      `x`'s id, keeping length and order. */
  function UpdateById<T>(s: seq<T>, x: T, key: T -> string): (r: seq<T>)
    ensures |r| == |s|
    ensures forall i :: 0 <= i < |s| ==> r[i] == if key(s[i]) == key(x) then x else s[i]
    ensures (forall i :: 0 <= i < |s| ==> key(s[i]) != key(x)) ==> r == s
  {
    MapWhere(s, HasKey(key, key(x)), (_: T) => x)
  }

  // ---------------------------------------------------------------- approval

  /** `purchaseOrders.find(p => p.id === poId)` */
  function FindOrder(orders: seq<PurchaseOrder>, poId: string): (r: Option<PurchaseOrder>)
    ensures r.None? <==> forall i :: 0 <= i < |orders| ==> orders[i].id != poId
    ensures r.Some? ==> exists i :: 0 <= i < |orders| && r.value == orders[i] && orders[i].id == poId &&
                                    (forall j :: 0 <= j < i ==> orders[j].id != poId)
  {
    forall x: PurchaseOrder
      ensures HasKey(OrderKey, poId)(x) <==> x.id == poId
    {
      assert HasKey(OrderKey, poId)(x) == (OrderKey(x) == poId);
    }
    Find(orders, HasKey(OrderKey, poId))
  }

  function Purchased(o: PurchaseOrder): PurchaseOrder {
    o.(status := OrderStatus.PURCHASED)
  }

  /** `prev.map(p => p.id === poId ? { ...p, status: 'PURCHASED' } : p)` */
  function MarkPurchased(orders: seq<PurchaseOrder>, poId: string): (r: seq<PurchaseOrder>)
    ensures |r| == |orders|
    ensures forall i :: 0 <= i < |orders| ==>
      r[i] == if orders[i].id == poId then orders[i].(status := OrderStatus.PURCHASED) else orders[i]
  {
    MapWhere(orders, HasKey(OrderKey, poId), Purchased)
  }

  /** The expense recorded for an approved order; its date is the day part of the ISO clock. */
  function AutoTransaction(po: PurchaseOrder, at: Instant): Transaction {
    Transaction(
      id := "t-auto-" + at.stamp,
      projectId := Some(po.projectId),
      description := "Compra: " + po.itemName,
      amount := po.totalEstimate,
      kind := EXPENSE,
      category := "Material",
      date := Strings.BeforeFirst(at.iso, 'T'),
      status := TxStatus.PAID)
  }

  /** `s => s.projectId === po.projectId && s.name === po.itemName` */
  function SameItem(po: PurchaseOrder): StockItem -> bool {
    (s: StockItem) => s.projectId == po.projectId && s.name == po.itemName
  }

  function AddQuantity(q: int): StockItem -> StockItem {
    (s: StockItem) => s.(quantity := s.quantity + q)
  }

  /** `prev.map(s => s.id === id ? { ...s, quantity: s.quantity + q } : s)` */
  function Bump(s: seq<StockItem>, id: string, q: int): (r: seq<StockItem>)
    ensures |r| == |s|
    ensures forall j :: 0 <= j < |s| ==> r[j] == if s[j].id == id then s[j].(quantity := s[j].quantity + q) else s[j]
  {
    MapWhere(s, HasKey(StockKey, id), AddQuantity(q))
  }

  /** The row created for an item the project does not stock yet. */
  function NewStockRow(po: PurchaseOrder, at: Instant): StockItem {
    StockItem("s-auto-" + at.stamp, po.projectId, po.itemName, po.quantity, 10, "un", at.iso)
  }

  /** The offline stock upsert of an approval: when some row has the order's project and
      item name, every row sharing the FIRST such row's id gets the order's quantity added,
      all its other fields kept; otherwise one row with the order's quantity, a reorder
      threshold of 10 and the unit `un` is appended. */
  function UpsertStock(stock: seq<StockItem>, po: PurchaseOrder, at: Instant): (r: seq<StockItem>)
    ensures |stock| <= |r| <= |stock| + 1
    ensures (forall i :: 0 <= i < |stock| ==> !SameItem(po)(stock[i])) ==>
      |r| == |stock| + 1 && r[..|stock|] == stock && r[|stock|] == NewStockRow(po, at)
    ensures FirstIndex(stock, SameItem(po)).Some? ==>
      var k := FirstIndex(stock, SameItem(po)).value;
      |r| == |stock| &&
      forall j :: 0 <= j < |stock| ==>
        r[j] == if stock[j].id == stock[k].id then stock[j].(quantity := stock[j].quantity + po.quantity) else stock[j]
  {
    match FirstIndex(stock, SameItem(po))
    case Some(k) => Bump(stock, stock[k].id, po.quantity)
    case None => stock + [NewStockRow(po, at)]
  }

  /** `approvePurchaseOrder(poId)` offline: when the id is found, mark the order(s)
      PURCHASED, prepend the automatic expense and upsert the stock. There is no check of
      the order's status. */
  function Approve(d: Collections, poId: string, txAt: Instant, stockAt: Instant): (r: Collections)
    ensures r.clients == d.clients && r.projects == d.projects && r.logs == d.logs
    ensures (forall i :: 0 <= i < |d.purchaseOrders| ==> d.purchaseOrders[i].id != poId) ==> r == d
    ensures r.purchaseOrders == MarkPurchased(d.purchaseOrders, poId)
    ensures |d.transactions| <= |r.transactions| <= |d.transactions| + 1
    ensures r.transactions[|r.transactions| - |d.transactions|..] == d.transactions
    ensures |d.stock| <= |r.stock| <= |d.stock| + 1
  {
    match FindOrder(d.purchaseOrders, poId)
    case None => d
    case Some(po) =>
      d.(purchaseOrders := MarkPurchased(d.purchaseOrders, poId),
         transactions := [AutoTransaction(po, txAt)] + d.transactions,
         stock := UpsertStock(d.stock, po, stockAt))
  }

  /** Approving an existing order, the first one with that id being `d.purchaseOrders[k]`:
      exactly one transaction is prepended, an expense of the order's total estimate,
      PAID, in category `Material`, described as `Compra: <item>`, charged to the order's
      project; the stock is upserted with that order. */
  lemma ApproveKnownOrder(d: Collections, poId: string, txAt: Instant, stockAt: Instant, k: nat)
    requires k < |d.purchaseOrders| && d.purchaseOrders[k].id == poId
    requires forall j :: 0 <= j < k ==> d.purchaseOrders[j].id != poId
    ensures var r := Approve(d, poId, txAt, stockAt);
      var po := d.purchaseOrders[k];
      && |r.transactions| == |d.transactions| + 1
      && r.transactions[1..] == d.transactions
      && r.transactions[0].description == "Compra: " + po.itemName
      && r.transactions[0].amount == po.totalEstimate
      && r.transactions[0].kind == EXPENSE
      && r.transactions[0].category == "Material"
      && r.transactions[0].status == TxStatus.PAID
      && r.transactions[0].projectId == Some(po.projectId)
      && r.stock == UpsertStock(d.stock, po, stockAt)
  {
  }

  // ---------------------------------------------------------------- stock quantities

  /** The sum of all stock quantities. */
  function TotalQuantity(s: seq<StockItem>): int {
    if s == [] then 0 else s[0].quantity + TotalQuantity(s[1..])
  }

  lemma {:induction false} TotalQuantityAppend(s: seq<StockItem>, x: StockItem)
    ensures TotalQuantity(s + [x]) == TotalQuantity(s) + x.quantity
    decreases |s|
  {
    if s != [] {
      assert (s + [x])[1..] == s[1..] + [x];
      TotalQuantityAppend(s[1..], x);
    }
  }

  /** Bumping an id adds `q` once for every row carrying that id. */
  lemma BumpCons(s: seq<StockItem>, id: string, q: int)
    requires s != []
    ensures Bump(s, id, q) == [if s[0].id == id then s[0].(quantity := s[0].quantity + q) else s[0]] + Bump(s[1..], id, q)
  {
  }

  lemma FilterStep(s: seq<StockItem>, id: string)
    requires s != []
    ensures |Filter(s, HasKey(StockKey, id))| == (if s[0].id == id then 1 else 0) + |Filter(s[1..], HasKey(StockKey, id))|
  {
    assert HasKey(StockKey, id)(s[0]) == (s[0].id == id);
  }

  lemma {:induction false} BumpTotal(s: seq<StockItem>, id: string, q: int)
    ensures TotalQuantity(Bump(s, id, q)) == TotalQuantity(s) + q * |Filter(s, HasKey(StockKey, id))|
    decreases |s|
  {
    if s != [] {
      var rest := Bump(s[1..], id, q);
      var h := if s[0].id == id then s[0].(quantity := s[0].quantity + q) else s[0];
      BumpCons(s, id, q);
      assert ([h] + rest)[1..] == rest;
      BumpTotal(s[1..], id, q);
      FilterStep(s, id);
      var n := |Filter(s[1..], HasKey(StockKey, id))|;
      assert q * ((if s[0].id == id then 1 else 0) + n) == (if s[0].id == id then q else 0) + q * n;
    }
  }

  /** With unique ids, exactly one row carries the id of any given row. */
  lemma {:induction false} UniqueKeyCount<T>(s: seq<T>, key: T -> string, k: nat)
    requires UniqueKeys(s, key) && k < |s|
    ensures |Filter(s, HasKey(key, key(s[k])))| == 1
    decreases |s|
  {
    var p := HasKey(key, key(s[k]));
    assert UniqueKeys(s[1..], key) by {
      forall i, j | 0 <= i < j < |s[1..]| ensures key(s[1..][i]) != key(s[1..][j]) {
        assert s[1..][i] == s[i + 1] && s[1..][j] == s[j + 1];
      }
    }
    if k == 0 {
      assert forall i :: 0 <= i < |s[1..]| ==> !p(s[1..][i]) by {
        forall i | 0 <= i < |s[1..]| ensures !p(s[1..][i]) {
          assert s[1..][i] == s[i + 1];
        }
      }
      FilterDropsAll(s[1..], p);
    } else {
      assert key(s[0]) != key(s[k]);
      assert s[1..][k - 1] == s[k];
      UniqueKeyCount(s[1..], key, k - 1);
    }
  }

  /** With unique stock ids, an upsert adds exactly the order's quantity to the total. */
  lemma UpsertTotal(stock: seq<StockItem>, po: PurchaseOrder, at: Instant)
    requires UniqueKeys(stock, StockKey)
    ensures TotalQuantity(UpsertStock(stock, po, at)) == TotalQuantity(stock) + po.quantity
  {
    match FirstIndex(stock, SameItem(po))
    case Some(k) =>
      BumpTotal(stock, stock[k].id, po.quantity);
      UniqueKeyCount(stock, StockKey, k);
    case None =>
      TotalQuantityAppend(stock, NewStockRow(po, at));
  }

  /** An upsert keeps stock ids unique, provided the clock stamp gives a fresh id. */
  lemma UpsertKeepsUniqueIds(stock: seq<StockItem>, po: PurchaseOrder, at: Instant)
    requires UniqueKeys(stock, StockKey)
    requires forall i :: 0 <= i < |stock| ==> stock[i].id != "s-auto-" + at.stamp
    ensures UniqueKeys(UpsertStock(stock, po, at), StockKey)
  {
    var r := UpsertStock(stock, po, at);
    forall i, j | 0 <= i < j < |r| ensures StockKey(r[i]) != StockKey(r[j]) {
      if j < |stock| {
        assert r[i].id == stock[i].id && r[j].id == stock[j].id;
      } else {
        assert r[i].id == stock[i].id;
      }
    }
  }

  /** The no-guard behaviour: approving the same order twice prepends two expenses of its
      total estimate, and with unique stock ids adds its quantity to the stock twice. */
  lemma ReapprovalRepeatsEffects(d: Collections, poId: string, at1: Instant, s1: Instant, at2: Instant, s2: Instant)
    requires FindOrder(d.purchaseOrders, poId).Some?
    requires UniqueKeys(d.stock, StockKey)
    requires forall i :: 0 <= i < |d.stock| ==> d.stock[i].id != "s-auto-" + s1.stamp
    ensures var po := FindOrder(d.purchaseOrders, poId).value;
      var r := Approve(Approve(d, poId, at1, s1), poId, at2, s2);
      && |r.transactions| == |d.transactions| + 2
      && r.transactions[0].amount == po.totalEstimate
      && r.transactions[1].amount == po.totalEstimate
      && TotalQuantity(r.stock) == TotalQuantity(d.stock) + 2 * po.quantity
  {
    var po := FindOrder(d.purchaseOrders, poId).value;
    var k := FirstIndex(d.purchaseOrders, HasKey(OrderKey, poId)).value;
    var d1 := Approve(d, poId, at1, s1);
    ApproveKnownOrder(d, poId, at1, s1, k);
    assert d1.purchaseOrders[k] == Purchased(po);
    ApproveKnownOrder(d1, poId, at2, s2, k);
    UpsertTotal(d.stock, po, s1);
    UpsertKeepsUniqueIds(d.stock, po, s1);
    UpsertTotal(d1.stock, Purchased(po), s2);
  }

  // ---------------------------------------------------------------- the store object

  /** The `AppProvider` state when no backend is configured. */
  class AppStore {
    var currentUser: Option<User>
    var clients: seq<Client>
    var projects: seq<Project>
    var transactions: seq<Transaction>
    var stock: seq<StockItem>
    var purchaseOrders: seq<PurchaseOrder>
    var logs: seq<DailyLog>

    function Snapshot(): Collections
      reads this
    {
      Collections(clients, projects, transactions, stock, purchaseOrders, logs)
    }

    /** The provider starts with no user and the given seed collections. */
    constructor (seed: Collections)
      ensures Snapshot() == seed && currentUser == None
    {
      currentUser := None;
      clients, projects, transactions := seed.clients, seed.projects, seed.transactions;
      stock, purchaseOrders, logs := seed.stock, seed.purchaseOrders, seed.logs;
    }

    /** Without a backend, `login` throws and nothing changes. */
    method Login(email: string, password: string) returns (r: Outcome<string>)
      ensures r == Fail("Supabase not configured")
    {
      r := Fail("Supabase not configured");
    }

    method Logout()
      modifies this`currentUser
      ensures currentUser == None
    {
      currentUser := None;
    }

    method AddClient(c: Client)
      modifies this`clients
      ensures clients == old(clients) + [c]
    {
      clients := clients + [c];
    }

    method UpdateClient(c: Client)
      modifies this`clients
      ensures clients == UpdateById(old(clients), c, ClientKey)
    {
      clients := UpdateById(clients, c, ClientKey);
    }

    method RemoveClient(id: string)
      modifies this`clients
      ensures clients == RemoveById(old(clients), id, ClientKey)
    {
      clients := RemoveById(clients, id, ClientKey);
    }

    method AddProject(p: Project)
      modifies this`projects
      ensures projects == old(projects) + [p]
    {
      projects := projects + [p];
    }

    method UpdateProject(p: Project)
      modifies this`projects
      ensures projects == UpdateById(old(projects), p, ProjectKey)
    {
      projects := UpdateById(projects, p, ProjectKey);
    }

    method RemoveProject(id: string)
      modifies this`projects
      ensures projects == RemoveById(old(projects), id, ProjectKey)
    {
      projects := RemoveById(projects, id, ProjectKey);
    }

    /** Offline, a new transaction is prepended and no project's `spent` changes. */
    method AddTransaction(t: Transaction)
      modifies this`transactions
      ensures transactions == [t] + old(transactions)
    {
      transactions := [t] + transactions;
    }

    method UpdateTransaction(t: Transaction)
      modifies this`transactions
      ensures transactions == UpdateById(old(transactions), t, TransactionKey)
    {
      transactions := UpdateById(transactions, t, TransactionKey);
    }

    /** Removing a transaction does not give its amount back to the project's `spent`. */
    method RemoveTransaction(id: string)
      modifies this`transactions
      ensures transactions == RemoveById(old(transactions), id, TransactionKey)
    {
      transactions := RemoveById(transactions, id, TransactionKey);
    }

    method AddLog(l: DailyLog)
      modifies this`logs
      ensures logs == [l] + old(logs)
    {
      logs := [l] + logs;
    }

    method UpdateLog(l: DailyLog)
      modifies this`logs
      ensures logs == UpdateById(old(logs), l, LogKey)
    {
      logs := UpdateById(logs, l, LogKey);
    }

    method RemoveLog(id: string)
      modifies this`logs
      ensures logs == RemoveById(old(logs), id, LogKey)
    {
      logs := RemoveById(logs, id, LogKey);
    }

    method RequestPurchase(po: PurchaseOrder)
      modifies this`purchaseOrders
      ensures purchaseOrders == [po] + old(purchaseOrders)
    {
      purchaseOrders := [po] + purchaseOrders;
    }

    method RemovePurchaseOrder(id: string)
      modifies this`purchaseOrders
      ensures purchaseOrders == RemoveById(old(purchaseOrders), id, OrderKey)
    {
      purchaseOrders := RemoveById(purchaseOrders, id, OrderKey);
    }

    /** The three updates in the source's order: orders, then the transaction (through
        `AddTransaction`), then stock. `txAt` and `stockAt` are the two clock readings. */
    method ApprovePurchaseOrder(poId: string, txAt: Instant, stockAt: Instant)
      modifies this`purchaseOrders, this`transactions, this`stock
      ensures Snapshot() == Approve(old(Snapshot()), poId, txAt, stockAt)
    {
      var found := FindOrder(purchaseOrders, poId);
      if found.None? {
        return;
      }
      var po := found.value;
      purchaseOrders := MarkPurchased(purchaseOrders, poId);
      AddTransaction(AutoTransaction(po, txAt));
      stock := UpsertStock(stock, po, stockAt);
    }
  }
}
