/**
 * Picked media waiting to be sent:
 * WhatsAppClone/Screens/Chat/Models/MediaPickerItem_Types.swift.
 */
module MediaAttachments {

  import opened Wrappers

  /** A `UIImage`, reduced to its size in points and its bytes. */
  datatype Image = Image(width: real, height: real, data: seq<bv8>)

  /** `UIImage()`: no bytes and a zero size. */
  const EmptyImage: Image := Image(0.0, 0.0, [])

  type URL = string

  datatype MediaAttachmentType =
    | Photo(thumbnail: Image)
    | Video(thumbnail: Image, url: URL)
    | Audio(url: URL, duration: real)

  /**
   * The custom `==` of `MediaAttachmentType`: two attachments are equal
   * exactly when they are of the same kind, whatever they carry.
   */
  predicate SameKind(lhs: MediaAttachmentType, rhs: MediaAttachmentType)
  {
    match (lhs, rhs)
    case (Photo(_), Photo(_)) => true
    case (Video(_, _), Video(_, _)) => true
    case (Audio(_, _), Audio(_, _)) => true
    case _ => false
  }

  /** `==` compares the case only: payloads never matter, and different cases never match. */
  lemma SameKindIffSameCase(lhs: MediaAttachmentType, rhs: MediaAttachmentType)
    ensures SameKind(lhs, rhs) <==>
      (lhs.Photo? && rhs.Photo?) || (lhs.Video? && rhs.Video?) || (lhs.Audio? && rhs.Audio?)
  {
  }

  /** `==` is an equivalence: reflexive, symmetric and transitive. */
  lemma SameKindEquivalence(a: MediaAttachmentType, b: MediaAttachmentType, c: MediaAttachmentType)
    ensures SameKind(a, a)
    ensures SameKind(a, b) ==> SameKind(b, a)
    ensures SameKind(a, b) && SameKind(b, c) ==> SameKind(a, c)
  {
  }

  /** A picked attachment; `id` is its `Identifiable` identity. */
  datatype MediaAttachment = MediaAttachment(id: string, kind: MediaAttachmentType)
  {
    /** The picture shown in the preview strip: the stored thumbnail, or an empty image for voice. */
    function Thumbnail(): (img: Image)
      ensures kind.Audio? ==> img == EmptyImage
      ensures !kind.Audio? ==> img == kind.thumbnail
    {
      match kind
      case Photo(t) => t
      case Video(t, _) => t
      case Audio(_, _) => EmptyImage
    }

    /** The file to upload: none for a photo, the movie for a video, the recording for voice. */
    function FileURL(): (u: Option<URL>)
      ensures u.None? <==> kind.Photo?
      ensures u.Some? ==> u.value == kind.url
    {
      match kind
      case Photo(_) => None
      case Video(_, url) => Some(url)
      case Audio(url, _) => Some(url)
    }

    /** The recording's length, present only for voice. */
    function AudioDuration(): (d: Option<real>)
      ensures d.Some? <==> kind.Audio?
      ensures d.Some? ==> d.value == kind.duration
    {
      match kind
      case Audio(_, duration) => Some(duration)
      case _ => None
    }
  }
}
