/**
 * The round avatar of a user or channel:
 * WhatsAppClone/Components/CircularProfileImageView.swift.
 */
module ProfileImage {

  import opened Wrappers
  import opened ChannelModel

  /** Avatar sizes; `Custom` carries its own diameter (a `CGFloat`). */
  datatype Size = Mini | XSmall | Small | Medium | Large | XLarge | Custom(dim: real)
  {
    /** Diameter in points. */
    function Dimension(): (d: real)
      ensures Custom? ==> d == dim
      ensures !Custom? ==> d in {30.0, 40.0, 50.0, 60.0, 80.0, 120.0}
    {
      match this
      case Mini => 30.0
      case XSmall => 40.0
      case Small => 50.0
      case Medium => 60.0
      case Large => 80.0
      case XLarge => 120.0
      case Custom(d) => d
    }
  }

  /** The preset sizes, smallest first. */
  const Presets: seq<Size> := [Mini, XSmall, Small, Medium, Large, XLarge]

  /** Each preset is strictly larger than the one before it. */
  lemma PresetsStrictlyIncreasing(i: nat, j: nat)
    requires i < j < |Presets|
    ensures Presets[i].Dimension() < Presets[j].Dimension()
  {
  }

  /** The SF Symbol shown when there is no picture to load. */
  datatype FallbackImage = DirectChatIcon | GroupChatIcon
  {
    function RawValue(): (name: string)
      ensures DirectChatIcon? <==> name == "person.circle.fill"
      ensures GroupChatIcon? <==> name == "person.2.circle.fill"
    {
      match this
      case DirectChatIcon => "person.circle.fill"
      case GroupChatIcon => "person.2.circle.fill"
    }
  }

  /** `FallbackImage(for:)`: exactly two members is a direct chat; any other count is a group. */
  function FallbackFor(membersCount: int): (f: FallbackImage)
    ensures f == DirectChatIcon <==> membersCount == 2
  {
    if membersCount == 2 then DirectChatIcon else GroupChatIcon
  }

  /** The two icons are distinct symbols. */
  lemma FallbackRawValuesDistinct()
    ensures DirectChatIcon.RawValue() != GroupChatIcon.RawValue()
    ensures DirectChatIcon.RawValue() == "person.circle.fill"
    ensures GroupChatIcon.RawValue() == "person.2.circle.fill"
  {
  }

  /** The stored properties of a `CircularProfileImageView`. */
  datatype CircularProfileImage = CircularProfileImage(
    profileImageUrl: Option<string>,
    size: Size,
    fallbackImage: FallbackImage)

  /** `init(profileImageUrl:size:)`: a user's avatar always falls back to the single-person icon. */
  function ForUser(profileImageUrl: Option<string>, size: Size): (v: CircularProfileImage)
    ensures v.fallbackImage == DirectChatIcon
    ensures v.profileImageUrl == profileImageUrl && v.size == size
  {
    CircularProfileImage(profileImageUrl, size, DirectChatIcon)
  }

  /**
   * `init(_:size:)` for a channel: the fallback follows the channel's
   * stored member count. `coverImageUrl` is the channel's cover picture
   * (`ChannelItem.coverImageUrl` is not part of this model).
   */
  function ForChannel(channel: ChannelItem, coverImageUrl: Option<string>, size: Size): (v: CircularProfileImage)
    ensures v.fallbackImage == DirectChatIcon <==> channel.membersCount == 2
    ensures v.profileImageUrl == coverImageUrl && v.size == size
  {
    CircularProfileImage(coverImageUrl, size, FallbackFor(channel.membersCount))
  }

  /** The image the view draws: the remote picture when a URL is set, the fallback symbol otherwise. */
  datatype Drawn = Remote(url: string) | Symbol(name: string)

  function Body(v: CircularProfileImage): (d: Drawn)
    ensures v.profileImageUrl.Some? ==> d == Remote(v.profileImageUrl.value)
    ensures v.profileImageUrl.None? ==> d == Symbol(v.fallbackImage.RawValue())
  {
    match v.profileImageUrl
    case Some(url) => Remote(url)
    case None => Symbol(v.fallbackImage.RawValue())
  }
}
