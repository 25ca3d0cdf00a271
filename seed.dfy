/** The idempotent catalogue seed (app/api/seed/route.ts): for each of the
    ten built-in products, skip it when a product of the same name is stored,
    otherwise add it; report how many were created and skipped. */
module Seed {
  import opened Types

  /** A product document as the seed writes it (the store's `createdAt` is
      not modelled). */
  datatype SeedProduct = SeedProduct(name: string, price: int, description: string, imageUrl: string, storeName: Option<string>)

  const FailedMessage: string := "Failed to seed products"

  const SeedProducts: seq<SeedProduct> := [
    SeedProduct("Peak Milk Powdered (400g)", 750000,
      "Premium full cream powdered milk, rich in calcium and vitamins. Perfect for families.",
      "https://ng.jumia.is/unsafe/fit-in/680x680/filters:fill(white)/product/28/6366814/1.jpg?0028",
      Some("Grundy Stores")),
    SeedProduct("Nasco Cornflakes (500g)", 480000,
      "Crispy, golden cornflakes perfect for breakfast. A family favorite across Nigeria.",
      "https://www.nasco.net/media/page/nasco-corn-flakes-vanilla-cinnamon-350g.jpg",
      Some("Grundy Stores")),
    SeedProduct("Peanut Butter (500g)", 220000,
      "Creamy and smooth peanut butter, rich in protein. Great for sandwiches and snacks.",
      "https://shoprite.ng/wp-content/uploads/2023/06/Peanut-Butter-Extra-Crunchy-Nutzy-510G-1299.99.jpg",
      Some("Grundy Stores")),
    SeedProduct("Indomie Instant Noodles (Pack of 5)", 150000,
      "Delicious instant noodles, a Nigerian household staple. Quick and easy to prepare.",
      "https://shoprite.ng/wp-content/uploads/2023/06/Noodles-Inst-Indomie-120G-Chic-Super-199.99.jpg",
      Some("Grundy Stores")),
    SeedProduct("Golden Penny Pasta (500g)", 120000,
      "Quality pasta perfect for your favorite Nigerian pasta dishes. Versatile and filling.",
      "https://riftvalley.ng/wp-content/uploads/2024/10/GOLDEN-PENNY-PASTA-SLIM-SPAGHETTINI-500G.jpg",
      Some("Grundy Stores")),
    SeedProduct("Dangote Sugar (1kg)", 180000,
      "Pure refined sugar, perfect for cooking, baking, and beverages. Trusted Nigerian brand.",
      "https://encrypted-tbn0.gstatic.com/images?q=tbn:ANd9GcRdmvirgIRENua-ddxqq2TA641_ji8YA18qUA&s",
      Some("Grundy Stores")),
    SeedProduct("Blue Band Margarine (250g)", 85000,
      "Creamy margarine spread, ideal for bread and cooking. A kitchen essential.",
      "https://www.blueband.com/en-ke/-/media/Project/Upfield/Brands/Blue-Band-Global/Blue-Band-Consumer-KE/Assets/Products/BlueBand-Original-1kg-IML.jpg?rev=9fdaac4973fd496186464ebc74fec203",
      Some("Grundy Stores")),
    SeedProduct("Bournvita (500g)", 320000,
      "Nutritious chocolate drink powder, rich in vitamins and minerals. Energize your day!",
      "https://nextcashandcarry.com.ng/wp-content/uploads/2022/04/BOURNVITA-900G-JAR.jpeg",
      Some("Grundy Stores")),
    SeedProduct("Milo (400g)", 280000,
      "Chocolate malt drink powder, loved by kids and adults. Great for breakfast and snacks.",
      "https://encrypted-tbn0.gstatic.com/images?q=tbn:ANd9GcTFAYQnNtNA_IyLJQy2f3lho1X61_PQRm2tsw&s",
      Some("Grundy Stores")),
    SeedProduct("Maggi Cubes (Pack of 4)", 45000,
      "Flavorful seasoning cubes for soups, stews, and rice dishes. Essential for Nigerian cooking.",
      "https://encrypted-tbn0.gstatic.com/images?q=tbn:ANd9GcQg2X0tUG-ZXx8yLXpAwpzE7opxBNMpq07utw&s",
      Some("Grundy Stores"))
  ]

  /** A `name ==` query over the products collection has a result. */
  predicate NameExists(docs: seq<SeedProduct>, name: string)
  {
    exists k :: 0 <= k < |docs| && docs[k].name == name
  }

  /** One iteration of the loop: skip a product whose name is stored,
      otherwise append it. */
  function SeedStep(docs: seq<SeedProduct>, p: SeedProduct): seq<SeedProduct>
  {
    if NameExists(docs, p.name) then docs else docs + [p]
  }

  /** The collection after the loop has handled `ps` in order. */
  function SeedRun(docs: seq<SeedProduct>, ps: seq<SeedProduct>): seq<SeedProduct>
  {
    if ps == [] then docs else SeedStep(SeedRun(docs, ps[..|ps| - 1]), ps[|ps| - 1])
  }

  /** The seed only appends: the documents present before are an unchanged
      prefix, and every appended document is one of the products handled. */
  lemma {:induction false} SeedOnlyAppends(docs: seq<SeedProduct>, ps: seq<SeedProduct>)
    ensures |docs| <= |SeedRun(docs, ps)| <= |docs| + |ps|
    ensures SeedRun(docs, ps)[..|docs|] == docs
    ensures forall k :: |docs| <= k < |SeedRun(docs, ps)| ==> SeedRun(docs, ps)[k] in ps
  {
    if ps != [] {
      var front := ps[..|ps| - 1];
      SeedOnlyAppends(docs, front);
      var before := SeedRun(docs, front);
      var after := SeedRun(docs, ps);
      assert after[..|before|] == before;
      assert forall k :: |docs| <= k < |before| ==> after[k] == before[k] && before[k] in front;
      assert forall x :: x in front ==> x in ps;
    }
  }

  /** After the loop every handled product's name is stored. */
  lemma {:induction false} SeedStoresEveryName(docs: seq<SeedProduct>, ps: seq<SeedProduct>)
    ensures forall k :: 0 <= k < |ps| ==> NameExists(SeedRun(docs, ps), ps[k].name)
  {
    if ps != [] {
      var front := ps[..|ps| - 1];
      SeedStoresEveryName(docs, front);
      var before := SeedRun(docs, front);
      var after := SeedRun(docs, ps);
      assert after[..|before|] == before;
      forall k | 0 <= k < |ps|
        ensures NameExists(after, ps[k].name)
      {
        if k < |front| {
          assert front[k] == ps[k];
          var j :| 0 <= j < |before| && before[j].name == ps[k].name;
          assert after[j] == before[j];
        } else if !NameExists(before, ps[k].name) {
          assert after[|before|] == ps[k];
        }
      }
    }
  }

  /** A run over products whose names are all stored already adds nothing. */
  lemma {:induction false} SeedOfStoredNamesIsNoOp(docs: seq<SeedProduct>, ps: seq<SeedProduct>)
    requires forall k :: 0 <= k < |ps| ==> NameExists(docs, ps[k].name)
    ensures SeedRun(docs, ps) == docs
  {
    if ps != [] {
      SeedOfStoredNamesIsNoOp(docs, ps[..|ps| - 1]);
    }
  }

  /** Running the seed twice is running it once. */
  lemma SeedIsIdempotent(docs: seq<SeedProduct>, ps: seq<SeedProduct>)
    ensures SeedRun(SeedRun(docs, ps), ps) == SeedRun(docs, ps)
  {
    SeedStoresEveryName(docs, ps);
    SeedOfStoredNamesIsNoOp(SeedRun(docs, ps), ps);
  }

  /** No two built-in products share a name. */
  lemma SeedNamesDistinct()
    ensures |SeedProducts| == 10
    ensures forall j, k :: 0 <= j < k < |SeedProducts| ==> SeedProducts[j].name != SeedProducts[k].name
  {
  }

  /** Products with pairwise distinct names, none of them stored, are all
      created. */
  lemma {:induction false} FreshNamesAreAllCreated(docs: seq<SeedProduct>, ps: seq<SeedProduct>)
    requires forall j, k :: 0 <= j < k < |ps| ==> ps[j].name != ps[k].name
    requires forall k :: 0 <= k < |ps| ==> !NameExists(docs, ps[k].name)
    ensures SeedRun(docs, ps) == docs + ps
  {
    if ps != [] {
      var front, last := ps[..|ps| - 1], ps[|ps| - 1];
      FreshNamesAreAllCreated(docs, front);
      var before := docs + front;
      assert !NameExists(before, last.name) by {
        forall j | 0 <= j < |before|
          ensures before[j].name != last.name
        {
          if j >= |docs| {
            assert before[j] == ps[j - |docs|];
          }
        }
      }
      assert ps == front + [last];
    }
  }

  datatype SeedResponse = SeedOk(created: nat, skipped: nat) | SeedFailed(status: int, message: string)

  /** A store error: the query or the add of iteration `at` throws with
      `message`. */
  datatype SeedFault = SeedFault(at: nat, message: string)

  /** The products collection. */
  class ProductCatalog {
    var docs: seq<SeedProduct>

    constructor (docs: seq<SeedProduct>)
      ensures this.docs == docs
    {
      this.docs := docs;
    }

    /** `addDocument("products", p)`. */
    method AddDocument(p: SeedProduct)
      modifies this
      ensures docs == old(docs) + [p]
    {
      docs := docs + [p];
    }
  }

  /** `POST`. `fault` is the store error, if one occurs during the run. */
  method RunSeed(catalog: ProductCatalog, fault: Option<SeedFault>) returns (resp: SeedResponse)
    modifies catalog
    ensures fault.None? || fault.value.at >= |SeedProducts| ==>
              && catalog.docs == SeedRun(old(catalog.docs), SeedProducts)
              && resp.SeedOk?
              && resp.created == |catalog.docs| - |old(catalog.docs)|
              && resp.created + resp.skipped == |SeedProducts|
    ensures fault.Some? && fault.value.at < |SeedProducts| ==>
              && catalog.docs == SeedRun(old(catalog.docs), SeedProducts[..fault.value.at])
              && resp == SeedFailed(500, if fault.value.message != "" then fault.value.message else FailedMessage)
  {
    var created, skipped := 0, 0;
    for i := 0 to |SeedProducts|
      invariant catalog.docs == SeedRun(old(catalog.docs), SeedProducts[..i])
      invariant created == |catalog.docs| - |old(catalog.docs)| && created + skipped == i
      invariant fault.None? || fault.value.at >= i
    {
      SeedOnlyAppends(old(catalog.docs), SeedProducts[..i]);
      assert SeedProducts[..i + 1][..i] == SeedProducts[..i];
      if fault.Some? && fault.value.at == i {
        var message := if fault.value.message != "" then fault.value.message else FailedMessage;
        return SeedFailed(500, message);
      }
      var p := SeedProducts[i];
      if NameExists(catalog.docs, p.name) {
        skipped := skipped + 1;
        continue;
      }
      catalog.AddDocument(p);
      created := created + 1;
    }
    assert SeedProducts[..|SeedProducts|] == SeedProducts;
    resp := SeedOk(created, skipped);
  }

  /** On a store holding none of the built-in names the seed creates all
      ten; run again it creates none and skips all ten. */
  lemma SeedCounts(docs: seq<SeedProduct>)
    requires forall k :: 0 <= k < |SeedProducts| ==> !NameExists(docs, SeedProducts[k].name)
    ensures |SeedRun(docs, SeedProducts)| - |docs| == 10
    ensures |SeedRun(SeedRun(docs, SeedProducts), SeedProducts)| - |SeedRun(docs, SeedProducts)| == 0
  {
    SeedNamesDistinct();
    FreshNamesAreAllCreated(docs, SeedProducts);
    SeedIsIdempotent(docs, SeedProducts);
  }
}
