/**
 * The database-backed product endpoints (Controllers/ProductController.cs).
 * The `Products` table is a map from id to product; the id the store assigns
 * on insertion is supplied by the caller of `Create` as a key not yet in use.
 * Model validation is the `ValidProduct` predicate.
 */
module ProductControllers {
  import opened Base
  import opened Models

  const ProductNotFound := "Producto no encontrado"

  /** The action results the endpoints return. */
  datatype ProductResponse =
    | OkList(items: set<Product>)              // 200 with every product
    | OkProduct(product: Product)              // 200 with one product
    | Created(id: Int32, product: Product)     // 201, located at GetById(id)
    | NoContent                                // 204
    | BadRequest                               // 400 with the validation errors
    | NotFound(message: string)                // 404
  {
    function StatusCode(): int {
      match this
      case OkList(_) => 200
      case OkProduct(_) => 200
      case Created(_, _) => 201
      case NoContent => 204
      case BadRequest => 400
      case NotFound(_) => 404
    }
  }

  /** Every stored product sits under its own id. */
  ghost predicate KeyedById(store: map<Int32, Product>) {
    forall id :: id in store ==> store[id].id == id
  }

  class ProductController {
    var products: map<Int32, Product>

    ghost predicate Valid()
      reads this
    {
      KeyedById(products)
    }

    constructor(store: map<Int32, Product>)
      requires KeyedById(store)
      ensures Valid() && products == store
    {
      products := store;
    }

    /** 200 with exactly the stored products; nothing changes. */
    method GetAll() returns (r: ProductResponse)
      requires Valid()
      ensures r.OkList? && r.StatusCode() == 200
      ensures forall id :: id in products ==> products[id] in r.items
      ensures forall p :: p in r.items ==> p.id in products && products[p.id] == p
    {
      r := OkList(products.Values);
    }

    /** 200 with the product stored under `id`, or 404 when there is none; nothing changes. */
    method GetById(id: Int32) returns (r: ProductResponse)
      ensures id in products ==> r == OkProduct(products[id]) && r.StatusCode() == 200
      ensures id !in products ==> r == NotFound(ProductNotFound) && r.StatusCode() == 404
    {
      if id !in products {
        return NotFound(ProductNotFound);
      }
      return OkProduct(products[id]);
    }

    /**
     * An invalid body gives 400 and adds nothing; a valid one is stored under
     * the store-assigned `newId` and answered with 201 carrying that id.
     */
    method Create(body: Product, newId: Int32) returns (r: ProductResponse)
      requires Valid()
      requires newId !in products
      modifies this
      ensures Valid()
      ensures !ValidProduct(body) ==> r == BadRequest && products == old(products)
      ensures ValidProduct(body) ==>
                && r == Created(newId, body.(id := newId))
                && products == old(products)[newId := body.(id := newId)]
    {
      if !ValidProduct(body) {
        return BadRequest;
      }
      var stored := body.(id := newId);
      products := products[newId := stored];
      return Created(newId, stored);
    }

    /**
     * Validation comes first: an invalid body gives 400 whether or not `id`
     * exists.  A valid body for an unknown id gives 404.  Otherwise name,
     * price and stock of the stored product are overwritten with the body's
     * (its id is kept, the body's id ignored) and the answer is 204.  Nothing
     * else changes.
     */
    method Update(id: Int32, body: Product) returns (r: ProductResponse)
      requires Valid()
      modifies this
      ensures Valid()
      ensures !ValidProduct(body) ==> r == BadRequest && products == old(products)
      ensures ValidProduct(body) && id !in old(products) ==>
                r == NotFound(ProductNotFound) && products == old(products)
      ensures ValidProduct(body) && id in old(products) ==>
                && r == NoContent
                && products == old(products)[id := WithEditableFields(old(products)[id], body)]
    {
      if !ValidProduct(body) {
        return BadRequest;
      }
      if id !in products {
        return NotFound(ProductNotFound);
      }
      var existing := products[id];
      products := products[id := WithEditableFields(existing, body)];
      return NoContent;
    }

    /** 404 with no change for an unknown id; otherwise removes exactly that product and gives 204. */
    method Delete(id: Int32) returns (r: ProductResponse)
      requires Valid()
      modifies this
      ensures Valid()
      ensures id !in old(products) ==> r == NotFound(ProductNotFound) && products == old(products)
      ensures id in old(products) ==> r == NoContent && products == old(products) - {id}
    {
      if id !in products {
        return NotFound(ProductNotFound);
      }
      products := products - {id};
      return NoContent;
    }
  }

  /** A product created with a valid body is read back with identical fields under its new id. */
  method CreateThenGet(c: ProductController, body: Product, newId: Int32) returns (fetched: ProductResponse)
    requires c.Valid() && newId !in c.products && ValidProduct(body)
    modifies c
    ensures fetched == OkProduct(Product(newId, body.name, body.price, body.stock))
  {
    var created := c.Create(body, newId);
    fetched := c.GetById(newId);
  }

  /** After a successful update, reading the product shows the new values and the old id. */
  method UpdateThenGet(c: ProductController, id: Int32, body: Product) returns (fetched: ProductResponse)
    requires c.Valid() && id in c.products && ValidProduct(body)
    modifies c
    ensures fetched == OkProduct(Product(id, body.name, body.price, body.stock))
  {
    var updated := c.Update(id, body);
    fetched := c.GetById(id);
  }

  /** After a delete, reading the product gives 404, and every other product is still there. */
  method DeleteThenGet(c: ProductController, id: Int32) returns (fetched: ProductResponse)
    requires c.Valid()
    modifies c
    ensures fetched == NotFound(ProductNotFound)
    ensures forall other :: other in old(c.products) && other != id ==>
              other in c.products && c.products[other] == old(c.products[other])
  {
    var deleted := c.Delete(id);
    fetched := c.GetById(id);
  }
}
