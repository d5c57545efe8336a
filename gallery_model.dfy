/** The gallery item validator: the file its media type calls for must be present. */
module GalleryModel {
  import opened Common

  /** A gallery item's media fields; "" is an unset file. */
  datatype GalleryItem = GalleryItem(mediaType: string, image: string, video: string, thumbnail: string)

  datatype ValidationError = ImageRequired | VideoRequired

  /** `Gallery.clean`: None when the item is valid, else the error raised. */
  function Clean(item: GalleryItem): (r: Option<ValidationError>)
    ensures r == Some(ImageRequired) <==> item.mediaType == "image" && item.image == []
    ensures r == Some(VideoRequired) <==> item.mediaType == "video" && item.video == []
    ensures r == None <==> !(item.mediaType == "image" && item.image == []) &&
                           !(item.mediaType == "video" && item.video == [])
  {
    if item.mediaType == "image" && item.image == [] then Some(ImageRequired)
    else if item.mediaType == "video" && item.video == [] then Some(VideoRequired)
    else None
  }

  /** Only the media type and the file it names decide: the other files and the thumbnail never do. */
  lemma CleanLooksOnlyAtRequiredFile(item: GalleryItem, video: string, image: string, thumbnail: string)
    ensures item.mediaType == "image" ==>
      Clean(item) == Clean(item.(video := video, thumbnail := thumbnail))
    ensures item.mediaType == "video" ==>
      Clean(item) == Clean(item.(image := image, thumbnail := thumbnail))
  {
  }
}
