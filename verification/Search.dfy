/** The search index: one document per active product, written and removed by events. */
module Search {
  import opened Base

  datatype Status = Draft | Active | Archived

  datatype Product = Product(
    id: string, slug: string, title: string, description: string, categoryId: string,
    currency: string, units: int, nanos: int,
    mediaKeys: seq<string>, status: Status, attributes: map<string, string>)

  datatype ProductChanged = ProductChanged(productId: string, product: Option<Product>)

  datatype Doc = Doc(
    productId: string, slug: string, title: string, description: string, categoryId: string,
    units: int, nanos: int, currency: string, primaryMediaKey: string, attributes: map<string, string>)

  function DocOf(p: Product): Doc {
    Doc(p.id, p.slug, p.title, p.description, p.categoryId, p.units, p.nanos, p.currency,
        if p.mediaKeys != [] then p.mediaKeys[0] else "", p.attributes)
  }

  function Applied(docs: map<string, Doc>, evt: ProductChanged): map<string, Doc> {
    if evt.product == None || evt.product.value.status != Active then docs - {evt.productId}
    else docs[evt.product.value.id := DocOf(evt.product.value)]
  }

  /** The index OpenSearch should hold for a product table. */
  function Wanted(products: map<string, Product>): map<string, Doc> {
    map k | k in products && products[k].status == Active :: DocOf(products[k])
  }

  /** A document says of its product what a search shows. */
  predicate Describes(d: Doc, p: Product) {
    && d.productId == p.id && d.slug == p.slug && d.title == p.title && d.description == p.description
    && d.categoryId == p.categoryId && d.units == p.units && d.nanos == p.nanos && d.currency == p.currency
    && d.attributes == p.attributes
    && (if p.mediaKeys == [] then d.primaryMediaKey == "" else d.primaryMediaKey == p.mediaKeys[0])
  }

  /** What comes back from OpenSearch: an answer, silence after the write landed, or a failure before it. */
  datatype Reply = Answered | LostAnswer | Failed

  class SearchIndex {
    var docs: map<string, Doc>

    constructor ()
      ensures docs == map[]
    {
      docs := map[];
    }

    /** Indexes an active product and deletes the document of any other. An error may hide a write that landed. */
    method UpsertFromEvent(evt: ProductChanged, reply: Reply) returns (ok: bool)
      modifies this
      ensures docs == if reply == Failed then old(docs) else Applied(old(docs), evt)
      ensures reply != Failed ==>
                if evt.product.Some? && evt.product.value.status == Active then
                  && docs.Keys == old(docs).Keys + {evt.product.value.id} && Describes(docs[evt.product.value.id], evt.product.value)
                  && forall id :: id in old(docs) && id != evt.product.value.id ==> docs[id] == old(docs)[id]
                else docs == old(docs) - {evt.productId}
      ensures ok <==> reply == Answered
    {
      if evt.product == None || evt.product.value.status != Active {
        ok := Delete(evt.productId, reply);
        return;
      }
      var p := evt.product.value;
      var d := Doc(p.id, p.slug, p.title, p.description, p.categoryId, p.units, p.nanos, p.currency, "", p.attributes);
      if |p.mediaKeys| > 0 {
        d := d.(primaryMediaKey := p.mediaKeys[0]);
      }
      if reply != Failed {
        docs := docs[d.productId := d];
      }
      ok := reply == Answered;
    }

    /** Deleting a missing document answers 404, which is no error. */
    method Delete(productId: string, reply: Reply) returns (ok: bool)
      modifies this
      ensures docs == if reply == Failed then old(docs) else old(docs) - {productId}
      ensures ok <==> reply == Answered
    {
      var status := if reply == Answered then (if productId in docs then 200 else 404) else 503;
      if reply != Failed {
        docs := docs - {productId};
      }
      ok := status < 300 || status == 404;
    }
  }
}
