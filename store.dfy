/** The document database, seen as two collections keyed by `_id`. */
module Store {
  import opened Models

  class Database {
    var products: map<Id, Product>
    var orders: map<Id, Order>

    constructor (products: map<Id, Product>, orders: map<Id, Order>)
      ensures this.products == products && this.orders == orders
    {
      this.products := products;
      this.orders := orders;
    }
  }
}
