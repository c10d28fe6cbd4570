/** The product service's producer: catalogue events copied from a product,
    and the low-stock alert, each sent without a record key. */
module ProductEvents {
  import opened Common
  import opened KafkaTopics
  import opened Events

  /** A catalogue document; the creation and update times are not modelled. */
  datatype Product = Product(
    id: string, name: string, description: string, price: Decimal,
    categoryId: string, categoryName: string, stockQuantity: Int32)

  /** The created and updated events copy the same fields; the category they
      carry is the category's name. */
  function ProductEventOf(p: Product, correlationId: JString): ProductEvent {
    ProductEvent(p.id, p.name, p.description, p.price, p.categoryName, p.stockQuantity, correlationId)
  }

  function ProductDeletedOf(productId: string, correlationId: JString): ProductDeletedEvent {
    ProductDeletedEvent(productId, correlationId)
  }

  /** The alert names the product by a name made from its id: the catalogue
      is not consulted. */
  function InventoryDepletedOf(productId: string, currentStock: Int32, correlationId: JString): InventoryDepletedEvent {
    InventoryDepletedEvent(productId, "Product-" + productId, currentStock, correlationId)
  }

  /** Every catalogue event names the product it was built from, and the
      alert's product name is the id after a fixed prefix. */
  lemma EventsNameProduct(p: Product, productId: string, stock: Int32, correlationId: JString)
    ensures ProductEventOf(p, correlationId).productId == p.id
    ensures var e := ProductEventOf(p, correlationId);
      && e.name == p.name && e.description == p.description && e.price == p.price
      && e.category == p.categoryName && e.stockQuantity == p.stockQuantity
    ensures ProductDeletedOf(productId, correlationId).productId == productId
    ensures var e := InventoryDepletedOf(productId, stock, correlationId);
      && e.productId == productId && e.currentStock == stock
      && |e.productName| == |productId| + 8
      && e.productName[..8] == "Product-" && e.productName[8..] == productId
  {
  }

  class ProductEventProducer {
    /** Everything handed to the transport, oldest first. */
    var sent: seq<Message>
    /** The correlation id of the current request (opaque). */
    var correlationId: JString

    constructor (correlationId: JString)
      ensures sent == [] && this.correlationId == correlationId
    {
      sent := [];
      this.correlationId := correlationId;
    }

    method PublishProductCreated(product: Product)
      modifies this`sent
      ensures sent == old(sent) + [Unkeyed(PRODUCT_CREATED, ProductCreated(ProductEventOf(product, correlationId)))]
    {
      sent := sent + [Unkeyed(PRODUCT_CREATED, ProductCreated(ProductEventOf(product, correlationId)))];
    }

    method PublishProductUpdated(product: Product)
      modifies this`sent
      ensures sent == old(sent) + [Unkeyed(PRODUCT_UPDATED, ProductUpdated(ProductEventOf(product, correlationId)))]
    {
      sent := sent + [Unkeyed(PRODUCT_UPDATED, ProductUpdated(ProductEventOf(product, correlationId)))];
    }

    method PublishProductDeleted(productId: string)
      modifies this`sent
      ensures sent == old(sent) + [Unkeyed(PRODUCT_DELETED, ProductDeleted(ProductDeletedOf(productId, correlationId)))]
    {
      sent := sent + [Unkeyed(PRODUCT_DELETED, ProductDeleted(ProductDeletedOf(productId, correlationId)))];
    }

    method PublishInventoryDepleted(productId: string, currentStock: Int32)
      modifies this`sent
      ensures sent == old(sent)
                   + [Unkeyed(INVENTORY_DEPLETED, InventoryDepleted(InventoryDepletedOf(productId, currentStock, correlationId)))]
    {
      sent := sent + [Unkeyed(INVENTORY_DEPLETED, InventoryDepleted(InventoryDepletedOf(productId, currentStock, correlationId)))];
    }
  }
}
