/** The upload service's validation and naming: a MIME-type allowlist, a 5 MiB size cap, and the
    storage key `products/<uuid><extension>` with its public URL. The random UUID and the path
    library's `extname` are parameters, and the object store's `PutObject` call is not modelled. */
module UploadService {
  import opened Wrappers
  import opened Strings
  import ProductsService

  const ALLOWED_MIME_TYPES: seq<string> := ["image/jpeg", "image/jpg", "image/png", "image/webp", "image/gif"]
  const MAX_FILE_SIZE: int := 5 * 1024 * 1024

  datatype UploadError = InvalidFileType | FileTooLarge

  /** The multipart file fields the service reads. */
  datatype UploadedFile = UploadedFile(originalname: string, mimetype: string, size: int)

  datatype StoredObject = StoredObject(url: string, key: string)

  /** The storage key of an upload: the "products/" folder, the UUID, the lower-cased extension. */
  function ObjectKey(uuid: string, extension: string): string
  {
    "products/" + uuid + ToLower(extension)
  }

  /** uploadImage: a MIME type outside the allowlist is rejected first, then a size above the cap;
      an accepted file is stored under "products/" + uuid + its lower-cased extension, and the
      result is that key together with its URL under the configured (or default) public URL. */
  function UploadImage(file: UploadedFile, uuid: string, extname: string -> string, configuredUrl: Option<string>)
    : (r: Result<StoredObject, UploadError>)
    ensures r == Failure(InvalidFileType) <==> file.mimetype !in ALLOWED_MIME_TYPES
    ensures r == Failure(FileTooLarge) <==> file.mimetype in ALLOWED_MIME_TYPES && file.size > MAX_FILE_SIZE
    ensures r.Success? ==>
              && r.value.key == ObjectKey(uuid, extname(file.originalname))
              && r.value.url == ProductsService.PublicUrl(configuredUrl) + "/" + r.value.key
  {
    if file.mimetype !in ALLOWED_MIME_TYPES then Failure(InvalidFileType)
    else if file.size > MAX_FILE_SIZE then Failure(FileTooLarge)
    else
      var key := ObjectKey(uuid, extname(file.originalname));
      Success(StoredObject(ProductsService.PublicUrl(configuredUrl) + "/" + key, key))
  }

  /** The cap is inclusive: an allowed file of exactly 5 MiB is accepted, one byte more is not. */
  lemma SizeCapIsInclusive(name: string, mimetype: string, uuid: string, extname: string -> string, configuredUrl: Option<string>)
    requires mimetype in ALLOWED_MIME_TYPES
    ensures UploadImage(UploadedFile(name, mimetype, 5242880), uuid, extname, configuredUrl).Success?
    ensures UploadImage(UploadedFile(name, mimetype, 5242881), uuid, extname, configuredUrl) == Failure(FileTooLarge)
  {
  }

  /** The key has exactly two segments, "products" and the object name, whenever neither the
      UUID nor the extension holds a '/' (as a file extension never does). */
  lemma KeySegments(uuid: string, extension: string)
    requires '/' !in uuid && '/' !in extension
    ensures Split(ObjectKey(uuid, extension), '/') == ["products", uuid + ToLower(extension)]
  {
    var ext := ToLower(extension);
    var name := uuid + ext;
    assert '/' !in ext by {
      forall i | 0 <= i < |ext| ensures ext[i] != '/' {
        assert extension[i] in extension;
      }
    }
    assert '/' !in name;
    TwoSegments("products", name);
    assert "products/" + uuid + ext == "products" + "/" + name;
  }

  /** Removing a product image recovers the key the upload returned: both services read the same
      public-URL setting with the same default, and the upload's URL, read against it, gives back
      exactly that key. */
  lemma UploadedUrlGivesKey(file: UploadedFile, uuid: string, extname: string -> string, configuredUrl: Option<string>)
    requires UploadImage(file, uuid, extname, configuredUrl).Success?
    ensures var stored := UploadImage(file, uuid, extname, configuredUrl).value;
            ProductsService.ExtractKeyFromUrl(stored.url, ProductsService.PublicUrl(configuredUrl)) == stored.key
  {
    ProductsService.KeyOfStoredUrl(ProductsService.PublicUrl(configuredUrl), UploadImage(file, uuid, extname, configuredUrl).value.key);
  }

  /** A file whose type is not allowed and which is also too large reports the type error: the
      type is checked before the size. */
  lemma TypeCheckedFirst(file: UploadedFile, uuid: string, extname: string -> string, configuredUrl: Option<string>)
    requires file.mimetype !in ALLOWED_MIME_TYPES && file.size > MAX_FILE_SIZE
    ensures UploadImage(file, uuid, extname, configuredUrl) == Failure(InvalidFileType)
  {
  }
}
