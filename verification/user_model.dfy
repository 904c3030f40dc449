/**
 * `UserModel.init(uid:dictionary:)`: builds a user record from a
 * loosely-typed dictionary (as delivered by the database) without ever
 * failing; a field that is missing or is not a string becomes "".
 */
module UserModel {

  /** The dynamically typed values a `[String: Any]` dictionary can hold. */
  datatype AnyValue =
    | StringValue(text: string)
    | NumberValue(number: int)
    | BoolValue(flag: bool)
    | NullValue

  datatype User = User(uid: string, name: string, email: string, profileImageUrl: string)

  const NameKey: string := "name"
  const EmailKey: string := "email"
  const ProfileImageUrlKey: string := "profileImageUrl"

  /** `dictionary[key] as? String ?? ""`. */
  function StringOrEmpty(dictionary: map<string, AnyValue>, key: string): string {
    if key in dictionary && dictionary[key].StringValue? then dictionary[key].text else ""
  }

  /** The initializer: `uid` verbatim, each of the three fields by lookup with a default. */
  function Init(uid: string, dictionary: map<string, AnyValue>): (u: User)
    ensures u.uid == uid
    ensures NameKey !in dictionary ==> u.name == ""
    ensures EmailKey !in dictionary ==> u.email == ""
    ensures ProfileImageUrlKey !in dictionary ==> u.profileImageUrl == ""
    // a string stored under a key becomes that field
    ensures NameKey in dictionary && dictionary[NameKey].StringValue? ==> u.name == dictionary[NameKey].text
    ensures EmailKey in dictionary && dictionary[EmailKey].StringValue? ==> u.email == dictionary[EmailKey].text
    ensures ProfileImageUrlKey in dictionary && dictionary[ProfileImageUrlKey].StringValue? ==>
              u.profileImageUrl == dictionary[ProfileImageUrlKey].text
    // a value that is not a string (`as? String` fails) reads as ""
    ensures NameKey in dictionary && !dictionary[NameKey].StringValue? ==> u.name == ""
    ensures EmailKey in dictionary && !dictionary[EmailKey].StringValue? ==> u.email == ""
    ensures ProfileImageUrlKey in dictionary && !dictionary[ProfileImageUrlKey].StringValue? ==> u.profileImageUrl == ""
  {
    User(uid,
         StringOrEmpty(dictionary, NameKey),
         StringOrEmpty(dictionary, EmailKey),
         StringOrEmpty(dictionary, ProfileImageUrlKey))
  }

  /** The dictionary a user record is stored as. */
  function ToDictionary(u: User): map<string, AnyValue> {
    map[NameKey := StringValue(u.name), EmailKey := StringValue(u.email),
        ProfileImageUrlKey := StringValue(u.profileImageUrl)]
  }

  /** Decoding a stored record gives the record back. */
  lemma InitOfStored(u: User)
    ensures Init(u.uid, ToDictionary(u)) == u
  {
  }

  /** Keys other than the three fields, whatever their values, do not influence the result. */
  lemma InitIgnoresOtherKeys(uid: string, dictionary: map<string, AnyValue>, key: string, v: AnyValue)
    requires key != NameKey && key != EmailKey && key != ProfileImageUrlKey
    ensures Init(uid, dictionary[key := v]) == Init(uid, dictionary)
  {
  }

  /** A field stored with a non-string value reads as empty, exactly as if it were missing. */
  lemma InitNonStringIsMissing(uid: string, dictionary: map<string, AnyValue>, key: string, v: AnyValue)
    requires !v.StringValue?
    ensures Init(uid, dictionary[key := v]) == Init(uid, dictionary - {key})
  {
  }
}
