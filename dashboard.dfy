/**
 * The admin dashboard's four figures, computed from the replies of the orders, products and
 * variants endpoints; a failed or malformed reply counts as empty.
 */
module Dashboard {
  import opened Wrappers
  import Seqs

  /** Below this stock quantity a variant counts as low on stock. */
  const LowStockThreshold := 10

  /** An order as far as revenue reads it (an absent or zero total counts as 0), or a `null`
      element of the list, whose `totalPrice` cannot be read. */
  datatype Order = Order(totalPrice: Option<int>) | NullOrder

  /** The orders reply: rejected (caught, giving `[]`), a JSON value that is not an array
      (`null` included), or the list of orders. */
  datatype OrdersReply = OrdersFailed | OrdersNotArray | OrdersList(orders: seq<Order>)

  /** The products page reply: rejected (caught, giving `{content: [], totalElements: 0}`), or
      a page with an optional content length and an optional `totalElements`. */
  datatype ProductsReply =
    | ProductsFailed
    | ProductsPage(contentLength: Option<nat>, totalElements: Option<int>)
    | ProductsNull

  /** A variant as far as the stock check reads it. */
  datatype Variant = Variant(stockQuantity: Option<int>)

  /** The variants reply: rejected, or a list. A `null` body or a `null` element also throws
      inside the inner `try`, so it counts as `VariantsFailed`: the count stays at 0. */
  datatype VariantsReply = VariantsFailed | VariantsList(variants: seq<Variant>)

  datatype Stats = Stats(totalOrders: int, totalRevenue: int, lowStockProducts: int, totalProducts: int)

  /** `Array.isArray(ordersRes) ? ordersRes : []`. */
  function OrderList(reply: OrdersReply): seq<Order> {
    if reply.OrdersList? then reply.orders else []
  }

  /** `Number(order.totalPrice || 0)`. */
  function OrderAmount(o: Order): int
    requires o.Order?
  {
    o.totalPrice.GetOr(0)
  }

  /** No element of the list is `null`. */
  predicate NoNullOrder(orders: seq<Order>) {
    forall i :: 0 <= i < |orders| ==> orders[i].Order?
  }

  /** The `reduce` over the orders, from the left. */
  function Revenue(orders: seq<Order>): int
    requires NoNullOrder(orders)
  {
    if orders == [] then 0 else Revenue(orders[..|orders| - 1]) + OrderAmount(orders[|orders| - 1])
  }

  /** Revenue adds up over a split of the list. */
  lemma {:induction false} RevenueAppend(a: seq<Order>, b: seq<Order>)
    requires NoNullOrder(a) && NoNullOrder(b)
    ensures NoNullOrder(a + b)
    ensures Revenue(a + b) == Revenue(a) + Revenue(b)
    decreases |b|
  {
    if b == [] {
      assert a + b == a;
    } else {
      var init := b[..|b| - 1];
      assert (a + b)[..|a + b| - 1] == a + init;
      assert (a + b)[|a + b| - 1] == b[|b| - 1];
      RevenueAppend(a, init);
    }
  }

  /** Orders without a total add nothing; with non-negative totals revenue is non-negative and
      at least each single order's total. */
  lemma {:induction false} RevenueBounds(orders: seq<Order>)
    requires forall i :: 0 <= i < |orders| ==> orders[i].Order? && OrderAmount(orders[i]) >= 0
    ensures NoNullOrder(orders)
    ensures Revenue(orders) >= 0
    ensures forall i :: 0 <= i < |orders| ==> Revenue(orders) >= OrderAmount(orders[i])
  {
    if orders != [] {
      var init := orders[..|orders| - 1];
      RevenueBounds(init);
      forall i | 0 <= i < |orders| ensures Revenue(orders) >= OrderAmount(orders[i]) {
        if i < |orders| - 1 {
          assert orders[i] == init[i];
        }
      }
    }
  }

  /** `totalElements || content?.length || 0` on a page that is not `null`. */
  function ProductCount(reply: ProductsReply): int
    requires !reply.ProductsNull?
  {
    match reply
    case ProductsFailed => 0
    case ProductsPage(contentLength, totalElements) =>
      if totalElements.Some? && totalElements.value != 0 then totalElements.value
      else contentLength.GetOr(0)
  }

  /** The count is `totalElements` when that is set and not 0, and otherwise the length of the
      content; a rejected request counts like the page the `catch` puts in its place; a page
      whose figures are not negative gives a count that is not negative. */
  lemma ProductCountCases(reply: ProductsReply)
    requires !reply.ProductsNull?
    ensures reply.ProductsPage? && (reply.totalElements.None? || reply.totalElements == Some(0)) ==>
              ProductCount(reply) == reply.contentLength.GetOr(0)
    ensures reply.ProductsPage? && reply.totalElements.Some? && reply.totalElements.value != 0 ==>
              ProductCount(reply) == reply.totalElements.value
    ensures reply.ProductsFailed? ==> ProductCount(reply) == ProductCount(ProductsPage(Some(0), Some(0)))
    ensures reply.ProductsPage? && (reply.totalElements.None? || reply.totalElements.value >= 0) ==>
              ProductCount(reply) >= 0
  {
  }

  /** `v.stockQuantity < 10`; an absent quantity is not low. */
  predicate LowStock(v: Variant) {
    v.stockQuantity.Some? && v.stockQuantity.value < LowStockThreshold
  }

  function LowStockVariants(variants: seq<Variant>): seq<Variant> {
    Seqs.Filter(variants, LowStock)
  }

  /** The low-stock count is at most the number of variants, 0 when none is low, and the whole
      list when every variant is low. */
  lemma LowStockCountBounds(variants: seq<Variant>)
    ensures |LowStockVariants(variants)| <= |variants|
    ensures (forall i :: 0 <= i < |variants| ==> !LowStock(variants[i])) ==> |LowStockVariants(variants)| == 0
    ensures (forall i :: 0 <= i < |variants| ==> LowStock(variants[i])) ==> |LowStockVariants(variants)| == |variants|
  {
    Seqs.FilterNonEmpty(variants, LowStock);
    if forall i :: 0 <= i < |variants| ==> LowStock(variants[i]) {
      Seqs.FilterAll(variants, LowStock);
    }
  }

  /** The low-stock count adds up over a split of the list. */
  lemma LowStockAppend(a: seq<Variant>, b: seq<Variant>)
    ensures |LowStockVariants(a + b)| == |LowStockVariants(a)| + |LowStockVariants(b)|
  {
    Seqs.FilterAppend(a, b, LowStock);
  }

  class DashboardPage {
    var stats: Stats
    var loading: bool

    constructor ()
      ensures stats == Stats(0, 0, 0, 0) && loading
    {
      stats := Stats(0, 0, 0, 0);
      loading := true;
    }

    /** `loadDashboardStats` with the three replies as inputs. */
    method LoadDashboardStats(ordersReply: OrdersReply, productsReply: ProductsReply, variantsReply: VariantsReply)
      modifies this
      ensures StatsThrow(ordersReply, productsReply) ==> stats == old(stats)
      ensures !StatsThrow(ordersReply, productsReply) ==>
        && stats.totalOrders == |OrderList(ordersReply)|
        && stats.totalRevenue == Revenue(OrderList(ordersReply))
        && stats.totalProducts == ProductCount(productsReply)
        && (variantsReply.VariantsFailed? ==> stats.lowStockProducts == 0)
        && (variantsReply.VariantsList? ==> stats.lowStockProducts == |LowStockVariants(variantsReply.variants)|)
      ensures !loading
    {
      var orders := OrderList(ordersReply);
      if !NoNullOrder(orders) || productsReply.ProductsNull? {
        loading := false;
        return;
      }
      var totalRevenue := Revenue(orders);
      var totalProducts := ProductCount(productsReply);
      var lowStockCount := 0;
      if variantsReply.VariantsList? {
        lowStockCount := |LowStockVariants(variantsReply.variants)|;
      }
      stats := Stats(|orders|, totalRevenue, lowStockCount, totalProducts);
      loading := false;
    }
  }

  /** Whether `loadDashboardStats` throws into its outer `catch` before `setStats`: a `null`
      order breaks the revenue `reduce`, a `null` products page its `totalElements`. */
  predicate StatsThrow(ordersReply: OrdersReply, productsReply: ProductsReply) {
    !NoNullOrder(OrderList(ordersReply)) || productsReply.ProductsNull?
  }

  /** A failed or non-array orders reply shows no orders and no revenue. */
  lemma NoOrdersWhenFailed(reply: OrdersReply)
    requires !reply.OrdersList?
    ensures |OrderList(reply)| == 0 && Revenue(OrderList(reply)) == 0
  {
  }
}
