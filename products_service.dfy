/** The product service's rules: the pagination offset of the listings, the product lifecycle
    (update, soft delete), the image table (append at the current count, reorder by index,
    remove), and recovering an image's storage key from its public URL. */
module ProductsService {
  import opened Wrappers
  import opened Store
  import opened Strings

  datatype ProductError = ProductNotFound | ImageNotFound

  const DEFAULT_PAGE: int := 1
  const DEFAULT_LIMIT: int := 20
  /** The storage public URL used when none is configured. */
  const DEFAULT_PUBLIC_URL: string := "http://localhost:3900/luxe-beauty"

  /** The storage public URL the product and the upload services read: the configured one, or
      the default when the setting is absent. */
  function PublicUrl(configured: Option<string>): string
  {
    configured.GetOr(DEFAULT_PUBLIC_URL)
  }

  // ---------------------------------------------------------------- pagination

  /** `skip = (page - 1) * limit` of findAll and findAllAdmin, with page 1 and limit 20 when absent. */
  function Skip(page: Option<int>, limit: Option<int>): (skip: int)
    ensures page.None? || page == Some(1) ==> skip == 0
    ensures page.Some? && page.value >= 1 && (limit.None? || limit.value >= 0) ==> skip >= 0
  {
    (page.GetOr(DEFAULT_PAGE) - 1) * limit.GetOr(DEFAULT_LIMIT)
  }

  /** Consecutive pages tile the listing: page p + 1 starts where page p ends. */
  lemma ConsecutivePages(p: int, limit: Option<int>)
    ensures Skip(Some(p + 1), limit) == Skip(Some(p), limit) + limit.GetOr(DEFAULT_LIMIT)
  {
  }

  // ---------------------------------------------------------------- lifecycle

  /** A product the service will touch: present and not soft-deleted. */
  predicate Live(products: map<Id, Product>, id: Id)
  {
    id in products && products[id].deletedAt.None?
  }

  /** The fields update may change; an absent field is left as it is. */
  datatype ProductPatch = ProductPatch(
    name: Option<string>,
    description: Option<string>,
    categoryId: Option<Id>,
    isActive: Option<bool>)

  /** The product after update: each given field is written, and the slug is recomputed from a
      given, non-empty name unless the slug comes out empty. */
  function Patched(p: Product, d: ProductPatch, slugify: string -> string): (r: Product)
    ensures r.name == d.name.GetOr(p.name)
    ensures r.description == (if d.description.Some? then d.description else p.description)
    ensures r.categoryId == d.categoryId.GetOr(p.categoryId)
    ensures r.isActive == d.isActive.GetOr(p.isActive)
    ensures r.deletedAt == p.deletedAt
    ensures r.slug != p.slug ==> d.name.Some? && d.name.value != "" && r.slug == slugify(d.name.value)
    ensures d.name.Some? && d.name.value != "" && slugify(d.name.value) != "" ==> r.slug == slugify(d.name.value)
    ensures !(d.name.Some? && d.name.value != "" && slugify(d.name.value) != "") ==> r.slug == p.slug
    ensures d == ProductPatch(None, None, None, None) ==> r == p
  {
    var slug := if d.name.Some? && d.name.value != "" then slugify(d.name.value) else "";
    Product(
      d.name.GetOr(p.name),
      if slug != "" then slug else p.slug,
      if d.description.Some? then d.description else p.description,
      d.categoryId.GetOr(p.categoryId),
      d.isActive.GetOr(p.isActive),
      p.deletedAt)
  }

  /** update: a missing or soft-deleted product is not found; otherwise it is patched. */
  method Update(db: Database, id: Id, d: ProductPatch, slugify: string -> string) returns (r: Result<Product, ProductError>)
    modifies db`products
    ensures !Live(old(db.products), id) ==> r == Failure(ProductNotFound) && db.products == old(db.products)
    ensures Live(old(db.products), id) ==>
              && db.products == old(db.products)[id := Patched(old(db.products)[id], d, slugify)]
              && r == Success(db.products[id])
  {
    if !Live(db.products, id) {
      return Failure(ProductNotFound);
    }
    db.products := db.products[id := Patched(db.products[id], d, slugify)];
    r := Success(db.products[id]);
  }

  /** delete: a soft delete that stamps `deletedAt`; the row stays in the table. */
  method Delete(db: Database, id: Id, now: Timestamp) returns (r: Result<bool, ProductError>)
    modifies db`products
    ensures !Live(old(db.products), id) ==> r == Failure(ProductNotFound) && db.products == old(db.products)
    ensures Live(old(db.products), id) ==>
              && db.products == old(db.products)[id := old(db.products)[id].(deletedAt := Some(now))]
              && r == Success(true)
    ensures !Live(db.products, id)
  {
    if !Live(db.products, id) {
      return Failure(ProductNotFound);
    }
    db.products := db.products[id := db.products[id].(deletedAt := Some(now))];
    r := Success(true);
  }

  // ---------------------------------------------------------------- images

  /** The ids of the images attached to product `p`. */
  function ImagesOf(images: map<Id, ProductImage>, p: Id): set<Id>
  {
    set i | i in images && images[i].productId == p
  }

  /** The product's image positions all lie below its image count, as they do while the positions
      are 0, 1, ..., n - 1. */
  predicate PositionsBelowCount(images: map<Id, ProductImage>, p: Id)
  {
    forall i :: i in ImagesOf(images, p) ==> images[i].position < |ImagesOf(images, p)|
  }

  /** When the new image is added under a fresh id, the product has exactly one image more. */
  lemma ImagesOfAdd(images: map<Id, ProductImage>, id: Id, img: ProductImage)
    requires id !in images
    ensures ImagesOf(images[id := img], img.productId) == ImagesOf(images, img.productId) + {id}
    ensures |ImagesOf(images[id := img], img.productId)| == |ImagesOf(images, img.productId)| + 1
  {
    assert ImagesOf(images[id := img], img.productId) == ImagesOf(images, img.productId) + {id};
  }

  /** addImage: a missing or soft-deleted product is not found; otherwise the new image's
      position is the number of images the product had (the key argument is not stored). */
  method AddImage(db: Database, productId: Id, url: string, key: string, alt: Option<string>, newImageId: Id)
    returns (r: Result<ProductImage, ProductError>)
    requires newImageId !in db.images
    modifies db`images
    ensures !Live(db.products, productId) ==> r == Failure(ProductNotFound) && db.images == old(db.images)
    ensures Live(db.products, productId) ==>
              var img := ProductImage(productId, url, alt, |ImagesOf(old(db.images), productId)|);
              && db.images == old(db.images)[newImageId := img]
              && r == Success(img)
  {
    if !Live(db.products, productId) {
      return Failure(ProductNotFound);
    }
    var count := |ImagesOf(db.images, productId)|;
    var img := ProductImage(productId, url, alt, count);
    db.images := db.images[newImageId := img];
    r := Success(img);
  }

  /** While positions stay below the count, an added image is placed after every other image of
      the product, and the property is kept. */
  lemma AddedImageComesLast(images: map<Id, ProductImage>, p: Id, newImageId: Id, url: string, alt: Option<string>)
    requires newImageId !in images
    requires PositionsBelowCount(images, p)
    ensures var after := images[newImageId := ProductImage(p, url, alt, |ImagesOf(images, p)|)];
      && (forall i :: i in ImagesOf(images, p) ==> after[i].position < after[newImageId].position)
      && PositionsBelowCount(after, p)
  {
    ImagesOfAdd(images, newImageId, ProductImage(p, url, alt, |ImagesOf(images, p)|));
  }

  /** The count rule does not survive a removal: with images at positions 0 and 1, removing the
      first and adding one gives the new image position 1, the position the remaining image has. */
  lemma RemoveThenAddRepeatsPosition(p: Id, url: string)
    ensures var images := map["a" := ProductImage(p, url, None, 0), "b" := ProductImage(p, url, None, 1)];
            var removed := images - {"a"};
            var added := removed["c" := ProductImage(p, url, None, |ImagesOf(removed, p)|)];
            added["b"].position == added["c"].position
  {
    var images := map["a" := ProductImage(p, url, None, 0), "b" := ProductImage(p, url, None, 1)];
    var removed := images - {"a"};
    assert removed.Keys == {"b"};
    assert ImagesOf(removed, p) == {"b"};
  }

  /** removeImage: fails unless the product is live and the image belongs to it; otherwise only
      that image is deleted and the storage key recovered from its URL is returned. */
  method RemoveImage(db: Database, productId: Id, imageId: Id, configuredUrl: Option<string>)
    returns (r: Result<string, ProductError>)
    modifies db`images
    ensures !Live(db.products, productId) ==> r == Failure(ProductNotFound) && db.images == old(db.images)
    ensures Live(db.products, productId) && imageId !in ImagesOf(old(db.images), productId) ==>
              r == Failure(ImageNotFound) && db.images == old(db.images)
    ensures Live(db.products, productId) && imageId in ImagesOf(old(db.images), productId) ==>
              && db.images == old(db.images) - {imageId}
              && r == Success(ExtractKeyFromUrl(old(db.images)[imageId].url, PublicUrl(configuredUrl)))
  {
    if !Live(db.products, productId) {
      return Failure(ProductNotFound);
    }
    if imageId !in db.images || db.images[imageId].productId != productId {
      return Failure(ImageNotFound);
    }
    var url := db.images[imageId].url;
    db.images := db.images - {imageId};
    r := Success(ExtractKeyFromUrl(url, PublicUrl(configuredUrl)));
  }

  /** One `updateMany` of reorderImages: the image `id`, if it belongs to product `p`, gets `position`. */
  function SetPosition(images: map<Id, ProductImage>, p: Id, id: Id, position: int): map<Id, ProductImage>
  {
    if id in ImagesOf(images, p) then images[id := images[id].(position := position)] else images
  }

  /** The whole reorder transaction: the i-th id is given position i, in order. */
  function Reordered(images: map<Id, ProductImage>, p: Id, ids: seq<Id>): map<Id, ProductImage>
    decreases |ids|
  {
    if ids == [] then images
    else SetPosition(Reordered(images, p, ids[..|ids| - 1]), p, ids[|ids| - 1], |ids| - 1)
  }

  /** A reorder changes positions only: the same images, attached to the same products, with the
      same URLs and alt texts; an image that is not the product's, or whose id is not listed,
      is untouched. */
  lemma {:induction false} ReorderedKeepsImages(images: map<Id, ProductImage>, p: Id, ids: seq<Id>)
    ensures var r := Reordered(images, p, ids);
      && r.Keys == images.Keys
      && (forall x :: x in images ==> r[x] == images[x].(position := r[x].position))
      && (forall x :: x in images && (x !in ImagesOf(images, p) || x !in ids) ==> r[x] == images[x])
    decreases |ids|
  {
    if ids != [] {
      var init := ids[..|ids| - 1];
      ReorderedKeepsImages(images, p, init);
      assert forall x :: x in init ==> x in ids;
      var prev := Reordered(images, p, init);
      assert ImagesOf(prev, p) == ImagesOf(images, p);
    }
  }

  /** With distinct ids, the image listed at index i that belongs to the product ends at position i. */
  lemma {:induction false} ReorderedPositions(images: map<Id, ProductImage>, p: Id, ids: seq<Id>)
    requires forall i, j :: 0 <= i < j < |ids| ==> ids[i] != ids[j]
    ensures var r := Reordered(images, p, ids);
      forall i :: 0 <= i < |ids| && ids[i] in ImagesOf(images, p) ==> ids[i] in r && r[ids[i]].position == i
    decreases |ids|
  {
    if ids != [] {
      var n := |ids| - 1;
      var init := ids[..n];
      ReorderedPositions(images, p, init);
      ReorderedKeepsImages(images, p, init);
      var prev := Reordered(images, p, init);
      assert ImagesOf(prev, p) == ImagesOf(images, p);
      forall i | 0 <= i < |ids| && ids[i] in ImagesOf(images, p)
        ensures ids[i] in Reordered(images, p, ids) && Reordered(images, p, ids)[ids[i]].position == i
      {
        if i < n {
          assert init[i] == ids[i];
          assert ids[i] != ids[n];
        }
      }
    }
  }

  /** reorderImages: a missing or soft-deleted product is not found; otherwise, in one
      transaction, each listed id that is one of the product's images gets its index as position.
      The result holds the number of rows each update matched. */
  method ReorderImages(db: Database, productId: Id, imageIds: seq<Id>) returns (r: Result<seq<nat>, ProductError>)
    modifies db`images
    ensures !Live(db.products, productId) ==> r == Failure(ProductNotFound) && db.images == old(db.images)
    ensures Live(db.products, productId) ==>
              && db.images == Reordered(old(db.images), productId, imageIds)
              && r.Success? && |r.value| == |imageIds|
              && (forall i :: 0 <= i < |imageIds| ==>
                    r.value[i] == if imageIds[i] in ImagesOf(old(db.images), productId) then 1 else 0)
  {
    if !Live(db.products, productId) {
      return Failure(ProductNotFound);
    }
    ghost var before := db.images;
    var counts: seq<nat> := [];
    var i := 0;
    while i < |imageIds|
      invariant 0 <= i <= |imageIds|
      invariant db.images == Reordered(before, productId, imageIds[..i])
      invariant ImagesOf(db.images, productId) == ImagesOf(before, productId)
      invariant |counts| == i
      invariant forall j :: 0 <= j < i ==>
                  counts[j] == if imageIds[j] in ImagesOf(before, productId) then 1 else 0
    {
      assert imageIds[..i + 1][..i] == imageIds[..i];
      var id := imageIds[i];
      var matched: nat := if id in db.images && db.images[id].productId == productId then 1 else 0;
      if matched == 1 {
        db.images := db.images[id := db.images[id].(position := i)];
      }
      assert ImagesOf(db.images, productId) == ImagesOf(before, productId);
      counts := counts + [matched];
      i := i + 1;
    }
    assert imageIds[..|imageIds|] == imageIds;
    r := Success(counts);
  }

  /** After a successful delete, update, delete and addImage on that product report it not found. */
  method SoftDeleteIsFinal(db: Database, id: Id, now: Timestamp, d: ProductPatch, slugify: string -> string,
                           url: string, key: string, alt: Option<string>, newImageId: Id)
    returns (deleted: Result<bool, ProductError>, updated: Result<Product, ProductError>,
             deletedAgain: Result<bool, ProductError>, added: Result<ProductImage, ProductError>)
    requires newImageId !in db.images
    modifies db`products, db`images
    ensures deleted.Success? ==>
              && updated == Failure(ProductNotFound)
              && deletedAgain == Failure(ProductNotFound)
              && added == Failure(ProductNotFound)
  {
    deleted := Delete(db, id, now);
    updated := Update(db, id, d, slugify);
    deletedAgain := Delete(db, id, now);
    added := AddImage(db, id, url, key, alt, newImageId);
  }

  // ---------------------------------------------------------------- storage keys

  /** extractKeyFromUrl: a URL under the storage base loses its first "base/"; any other URL is cut
      down to its last two '/'-separated segments. */
  function ExtractKeyFromUrl(url: string, baseUrl: string): string
  {
    if StartsWith(url, baseUrl) then ReplaceFirst(url, baseUrl + "/", "")
    else Join(LastTwo(Split(url, '/')), '/')
  }

  /** The URL of an object under the storage base gives back the object's key. */
  lemma KeyOfStoredUrl(baseUrl: string, key: string)
    ensures ExtractKeyFromUrl(baseUrl + "/" + key, baseUrl) == key
  {
    var url := baseUrl + "/" + key;
    assert url[..|baseUrl|] == baseUrl;
    assert url == (baseUrl + "/") + key;
    ReplaceLeadingOccurrence(url, baseUrl + "/", key);
  }

  /** Any other URL gives a key made of at most two segments, namely the URL's last two. */
  lemma KeyOfForeignUrl(url: string, baseUrl: string)
    requires !StartsWith(url, baseUrl)
    ensures Split(ExtractKeyFromUrl(url, baseUrl), '/') == LastTwo(Split(url, '/'))
  {
    var parts := Split(url, '/');
    var last := LastTwo(parts);
    assert ExtractKeyFromUrl(url, baseUrl) == Join(last, '/');
    LastTwoKeepsParts(parts, '/');
    SplitJoin(last, '/');
  }

  /** For a foreign URL ending in "/folder/file", the key is "folder/file". */
  lemma KeyOfForeignUrlExample(prefix: string, folder: string, file: string, baseUrl: string)
    requires '/' !in folder && '/' !in file
    requires !StartsWith(prefix + "/" + folder + "/" + file, baseUrl)
    ensures ExtractKeyFromUrl(prefix + "/" + folder + "/" + file, baseUrl) == folder + "/" + file
  {
    var tail := folder + "/" + file;
    assert prefix + "/" + folder + "/" + file == prefix + ['/'] + tail;
    SplitAppend(prefix, tail, '/');
    SplitAppend(folder, file, '/');
    SplitWithoutSeparator(folder, '/');
    SplitWithoutSeparator(file, '/');
    var parts := Split(prefix, '/') + [folder, file];
    assert Split(prefix + "/" + folder + "/" + file, '/') == parts;
    assert LastTwo(parts) == [folder, file];
    assert [folder, file][1..] == [file];
    assert Join([folder, file], '/') == folder + ['/'] + file;
  }
}
