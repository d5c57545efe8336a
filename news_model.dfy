/** A news article: slug defaulting on save and its two image getters. */
module NewsModel {
  import opened Common
  import opened AssetIdentifier

  class News {
    var title: string
    var slug: string
    var previewImage: string  // required field; "" while no file is set
    var image: string         // optional field; "" when unset

    constructor (title: string, slug: string, previewImage: string, image: string)
      ensures this.title == title && this.slug == slug
      ensures this.previewImage == previewImage && this.image == image
    {
      this.title := title;
      this.slug := slug;
      this.previewImage := previewImage;
      this.image := image;
    }

    /**
     * `News.save`: an empty slug is filled from the title (`slugify` is the
     * library function, taken as given); a non-empty slug is never replaced.
     */
    method Save(slugify: string -> string)
      modifies this`slug
      ensures old(slug) != [] ==> slug == old(slug)
      ensures old(slug) == [] ==> slug == slugify(title)
    {
      if slug == [] {
        slug := slugify(title);
      }
    }

    /** `get_preview_image_url`; `storageUrl` is the storage backend's `FieldFile.url`. */
    function PreviewImageUrl(storageUrl: string -> string): (r: Option<string>)
      reads this
      ensures r.None? <==> Classify(previewImage) == Unset
      ensures Classify(previewImage) == RemoteVersionedId ==> r == Some(UploadUrl(HardcodedCloud, previewImage))
      ensures Classify(previewImage) in {AbsoluteUrl, LegacyLocalPath} ==> r == Some(storageUrl(previewImage))
    {
      if previewImage != [] && "v" <= previewImage then Some(UploadUrl(HardcodedCloud, previewImage))
      else if previewImage != [] then Some(storageUrl(previewImage))
      else None
    }

    /** `get_image_url`, the same rule over the optional image. */
    function ImageUrl(storageUrl: string -> string): (r: Option<string>)
      reads this
      ensures r.None? <==> Classify(image) == Unset
      ensures Classify(image) == RemoteVersionedId ==> r == Some(UploadUrl(HardcodedCloud, image))
      ensures Classify(image) in {AbsoluteUrl, LegacyLocalPath} ==> r == Some(storageUrl(image))
    {
      if image != [] && "v" <= image then Some(UploadUrl(HardcodedCloud, image))
      else if image != [] then Some(storageUrl(image))
      else None
    }
  }
}
