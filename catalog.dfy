/** The product table and its admin handlers (the GET, POST, PUT and DELETE
    handlers of the products "restore" route): lookup, creation with
    required fields, partial update and soft delete. Prices are integer
    cents; the handlers' `parseFloat`/`parseInt` are taken as already done. */
module Catalog {
  import opened Common

  const ProductNotFound := "Product not found"
  const MissingFields := "Missing required fields"
  const IdRequired := "Product ID required"
  const UpdateFailed := "Failed to update product"
  const ArchiveFailed := "Failed to archive product"
  const Archived := "Product archived successfully"

  datatype Product = Product(
    id: ProductId,
    name: string,
    description: string,
    price: nat,
    stock: int,
    category: string,
    imageUrl: string,
    isActive: bool,
    featured: bool)

  /** The optional fields of a PUT body. */
  datatype ProductPatch = ProductPatch(
    name: Option<string>,
    description: Option<string>,
    price: Option<nat>,
    stock: Option<int>,
    category: Option<string>,
    imageUrl: Option<string>,
    featured: Option<bool>)

  /** What a GET answers: one product, the whole table, or 404. */
  datatype Listing =
    | One(product: Product)
    | All(products: map<ProductId, Product>)
    | Missing(status: nat, error: string)

  /** What POST, PUT and DELETE answer. */
  datatype AdminReply =
    | Saved(status: nat, product: Product)
    | Done(message: string)
    | Refused(status: nat, error: string)

  /** The update a PUT makes: strings only when truthy, price, stock and
      featured whenever present (so `featured: false` is applied). */
  function Patched(p: Product, patch: ProductPatch): Product
  {
    p.(name := if Truthy(patch.name) then patch.name.value else p.name,
       description := if Truthy(patch.description) then patch.description.value else p.description,
       price := if patch.price.Some? then patch.price.value else p.price,
       stock := if patch.stock.Some? then patch.stock.value else p.stock,
       category := if Truthy(patch.category) then patch.category.value else p.category,
       imageUrl := if Truthy(patch.imageUrl) then patch.imageUrl.value else p.imageUrl,
       featured := if patch.featured.Some? then patch.featured.value else p.featured)
  }

  /** A patch supplies no field when every string is falsy and every other
      field is absent. */
  predicate SuppliesNothing(patch: ProductPatch)
  {
    !Truthy(patch.name) && !Truthy(patch.description) && patch.price.None? && patch.stock.None?
    && !Truthy(patch.category) && !Truthy(patch.imageUrl) && patch.featured.None?
  }

  /** A partial update never touches the id or the active flag; each string
      field takes the supplied value when it is truthy and otherwise keeps
      the old one; price, stock and featured take any supplied value. */
  lemma PatchedFields(p: Product, patch: ProductPatch)
    ensures Patched(p, patch).id == p.id && Patched(p, patch).isActive == p.isActive
    ensures Truthy(patch.name) ==> Patched(p, patch).name == patch.name.value
    ensures !Truthy(patch.name) ==> Patched(p, patch).name == p.name
    ensures Truthy(patch.description) ==> Patched(p, patch).description == patch.description.value
    ensures !Truthy(patch.description) ==> Patched(p, patch).description == p.description
    ensures Truthy(patch.category) ==> Patched(p, patch).category == patch.category.value
    ensures !Truthy(patch.category) ==> Patched(p, patch).category == p.category
    ensures Truthy(patch.imageUrl) ==> Patched(p, patch).imageUrl == patch.imageUrl.value
    ensures !Truthy(patch.imageUrl) ==> Patched(p, patch).imageUrl == p.imageUrl
    ensures Patched(p, patch).price == patch.price.GetOr(p.price)
    ensures Patched(p, patch).stock == patch.stock.GetOr(p.stock)
    ensures Patched(p, patch).featured == patch.featured.GetOr(p.featured)
  {
  }

  /** Applying the same patch twice is applying it once. */
  lemma PatchIdempotent(p: Product, patch: ProductPatch)
    ensures Patched(Patched(p, patch), patch) == Patched(p, patch)
  {
  }

  /** An empty PUT body (only the id) leaves the product as it was. */
  lemma EmptyPatchKeeps(p: Product, patch: ProductPatch)
    requires SuppliesNothing(patch)
    ensures Patched(p, patch) == p
  {
  }

  /** No product that was inactive in `before` is active in `after`. */
  ghost predicate NoneReactivated(before: map<ProductId, Product>, after: map<ProductId, Product>)
  {
    forall id :: id in before && !before[id].isActive ==> id in after && !after[id].isActive
  }

  class ProductTable {
    var products: map<ProductId, Product>

    /** Products are keyed by their id. */
    ghost predicate Valid()
      reads this
    {
      forall id :: id in products ==> products[id].id == id
    }

    constructor ()
      ensures Valid() && products == map[]
    {
      products := map[];
    }

    /** GET: with a (truthy) id, that product or 404; without, all of them
        (the newest-first order is the database's and is not modelled). */
    function Get(id: Option<ProductId>): (r: Listing)
      reads this
      requires Valid()
      ensures Truthy(id) && id.value !in products ==> r == Missing(404, ProductNotFound)
      ensures Truthy(id) && id.value in products ==> r.One? && r.product.id == id.value && products[id.value] == r.product
      ensures !Truthy(id) ==> r == All(products)
    {
      if Truthy(id) then
        if id.value !in products then Missing(404, ProductNotFound) else One(products[id.value])
      else All(products)
    }

    /** POST: name, description, category and image must be truthy and
        price and stock present (0 is accepted for both); the new product is
        active, and featured only if the body says `featured: true`. `newId`
        is the id the database assigns. */
    method Create(name: Option<string>, description: Option<string>, price: Option<nat>, stock: Option<int>,
                  category: Option<string>, imageUrl: Option<string>, featured: Option<bool>, newId: ProductId)
      returns (reply: AdminReply)
      requires Valid() && newId !in products
      modifies this
      ensures Valid() && NoneReactivated(old(products), products)
      ensures reply.Refused? <==>
        !(Truthy(name) && Truthy(description) && price.Some? && stock.Some? && Truthy(category) && Truthy(imageUrl))
      ensures reply.Refused? ==> reply == Refused(400, MissingFields) && products == old(products)
      ensures !reply.Refused? ==> reply.Saved?
      ensures reply.Saved? ==>
        && reply.status == 201
        && reply.product == Product(newId, name.value, description.value, price.value, stock.value,
                                    category.value, imageUrl.value, true, featured == Some(true))
        && products == old(products)[newId := reply.product]
        && |products| == |old(products)| + 1
    {
      if !Truthy(name) || !Truthy(description) || price.None? || stock.None? || !Truthy(category) || !Truthy(imageUrl) {
        return Refused(400, MissingFields);
      }
      var product := Product(newId, name.value, description.value, price.value, stock.value,
                             category.value, imageUrl.value, true, featured == Some(true));
      products := products[newId := product];
      reply := Saved(201, product);
    }

    /** PUT: an id is required; the update of a missing row throws inside
        the handler and is answered 500; otherwise only the supplied fields
        change. */
    method Update(id: Option<ProductId>, patch: ProductPatch) returns (reply: AdminReply)
      requires Valid()
      modifies this
      ensures Valid() && NoneReactivated(old(products), products)
      ensures products.Keys == old(products).Keys
      ensures !Truthy(id) ==> reply == Refused(400, IdRequired)
      ensures Truthy(id) && id.value !in old(products) ==> reply == Refused(500, UpdateFailed)
      ensures reply.Refused? ==> products == old(products)
      ensures Truthy(id) && id.value in old(products) ==> reply.Saved?
      ensures reply.Saved? ==>
        && Truthy(id) && id.value in old(products)
        && reply == Saved(200, Patched(old(products)[id.value], patch))
        && products == old(products)[id.value := reply.product]
      ensures !reply.Done?
    {
      if !Truthy(id) {
        return Refused(400, IdRequired);
      }
      if id.value !in products {
        return Refused(500, UpdateFailed);
      }
      var product := Patched(products[id.value], patch);
      products := products[id.value := product];
      reply := Saved(200, product);
    }

    /** DELETE: an id is required; a missing row is answered 500; otherwise
        the row stays and only its active flag is cleared. */
    method Archive(id: Option<ProductId>) returns (reply: AdminReply)
      requires Valid()
      modifies this
      ensures Valid() && NoneReactivated(old(products), products)
      ensures products.Keys == old(products).Keys
      ensures !Truthy(id) ==> reply == Refused(400, IdRequired) && products == old(products)
      ensures Truthy(id) && id.value !in old(products) ==> reply == Refused(500, ArchiveFailed) && products == old(products)
      ensures Truthy(id) && id.value in old(products) ==>
        && reply == Done(Archived)
        && products == old(products)[id.value := old(products)[id.value].(isActive := false)]
    {
      if !Truthy(id) {
        return Refused(400, IdRequired);
      }
      if id.value !in products {
        return Refused(500, ArchiveFailed);
      }
      products := products[id.value := products[id.value].(isActive := false)];
      reply := Done(Archived);
    }
  }

  /** Archiving twice leaves the table as archiving once, and the product
      is still there. */
  method ArchiveTwice(table: ProductTable, id: ProductId) returns (first: AdminReply, second: AdminReply)
    requires table.Valid() && id in table.products && id != ""
    modifies table
    ensures first == Done(Archived) && second == Done(Archived)
    ensures table.products == old(table.products)[id := old(table.products)[id].(isActive := false)]
  {
    first := table.Archive(Some(id));
    second := table.Archive(Some(id));
  }
}
