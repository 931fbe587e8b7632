/** A user profile and its parser: WhatsAppClone/Screens/Auth/Model/UserItem.swift. */
module UserModel {

  import opened Wrappers
  import opened DictionaryValues

  /** The dictionary keys a user record is stored under. */
  const UidKey: string := "uid"
  const UsernameKey: string := "username"
  const EmailKey: string := "email"
  const BioKey: string := "bio"
  const ProfileImageUrlKey: string := "profileImageUrl"

  const DefaultBio: string := "Hey there! I am using WhatsUp."

  datatype UserItem = UserItem(
    uid: string,
    username: string,
    email: string,
    bio: Option<string>,
    profileImageUrl: Option<string>)
  {
    /** `Identifiable.id` */
    function Id(): (id: string)
      ensures id == uid
    {
      uid
    }

    /** The bio to display: the user's own, or the stock greeting. */
    function BioUnwrapped(): (b: string)
      ensures bio.Some? ==> b == bio.value
      ensures bio.None? ==> b == DefaultBio
    {
      bio.GetOr(DefaultBio)
    }
  }

  /** `init(dictionary:)`: missing or non-string names default to "", missing or non-string optionals to nil. */
  function FromDictionary(dict: Dictionary): (u: UserItem)
    ensures u.uid == StringAt(dict, UidKey).GetOr("")
    ensures u.username == StringAt(dict, UsernameKey).GetOr("")
    ensures u.email == StringAt(dict, EmailKey).GetOr("")
    ensures u.bio == StringAt(dict, BioKey)
    ensures u.profileImageUrl == StringAt(dict, ProfileImageUrlKey)
  {
    UserItem(
      StringAt(dict, UidKey).GetOr(""),
      StringAt(dict, UsernameKey).GetOr(""),
      StringAt(dict, EmailKey).GetOr(""),
      StringAt(dict, BioKey),
      StringAt(dict, ProfileImageUrlKey))
  }

  /**
   * A reference encoder for the round trip below: the app itself only
   * declares the key names (UserItem.swift, lines 39-45) and never writes a
   * user. Each present field goes under its key as a string.
   */
  function ToDictionary(u: UserItem): (dict: Dictionary)
    ensures u.bio.None? && u.profileImageUrl.None? ==> dict.Keys == {UidKey, UsernameKey, EmailKey}
  {
    map[UidKey := StringValue(u.uid), UsernameKey := StringValue(u.username), EmailKey := StringValue(u.email)]
    + (if u.bio.Some? then map[BioKey := StringValue(u.bio.value)] else map[])
    + (if u.profileImageUrl.Some? then map[ProfileImageUrlKey := StringValue(u.profileImageUrl.value)] else map[])
  }

  /** Parsing a user's own dictionary gives the user back: string values are copied verbatim. */
  lemma FromToDictionary(u: UserItem)
    ensures FromDictionary(ToDictionary(u)) == u
  {
    var d := ToDictionary(u);
    assert d[UidKey] == StringValue(u.uid);
    assert d[UsernameKey] == StringValue(u.username);
    assert d[EmailKey] == StringValue(u.email);
    assert u.bio.Some? ==> d[BioKey] == StringValue(u.bio.value);
    assert u.bio.None? ==> BioKey !in d;
    assert u.profileImageUrl.Some? ==> d[ProfileImageUrlKey] == StringValue(u.profileImageUrl.value);
    assert u.profileImageUrl.None? ==> ProfileImageUrlKey !in d;
  }

  /** Entries under other keys are ignored by the parser. */
  lemma FromDictionaryIgnoresOtherKeys(dict: Dictionary, k: string, v: Value)
    requires k !in {UidKey, UsernameKey, EmailKey, BioKey, ProfileImageUrlKey}
    ensures FromDictionary(dict[k := v]) == FromDictionary(dict)
  {
  }

  /** The five keys are pairwise distinct. */
  lemma KeysDistinct()
    ensures |{UidKey, UsernameKey, EmailKey, BioKey, ProfileImageUrlKey}| == 5
  {
  }

  /** An empty dictionary parses to a user with empty names and no optionals, who shows the stock greeting. */
  lemma EmptyDictionaryUser()
    ensures FromDictionary(map[]) == UserItem("", "", "", None, None)
    ensures FromDictionary(map[]).BioUnwrapped() == DefaultBio
  {
  }
}
