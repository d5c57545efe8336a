/**
 * The serializer logic with content of its own: the leadership image
 * resolver with its remote-lookup fallback chain, the product image getter,
 * the membership amount table applied on create, and the registration
 * password check.
 */
module Serializers {
  import opened Common
  import opened AssetIdentifier
  import MembershipModel

  /**
   * The settings the leadership resolver reads. `cloudName` is None when
   * `CLOUDINARY_STORAGE` has no `CLOUD_NAME` entry, so that reading it raises.
   */
  datatype Settings = Settings(cloudName: Option<string>, mediaUrl: string)

  /** What escapes `get_image`: the cloud-name lookup outside any handler. */
  datatype Raised = MissingCloudName

  /**
   * `NationalLeadershipSerializer.get_image`. `explicit` is the remote store's
   * lookup of a path: the `secure_url` it answers with, or None when the call
   * raises. `Err` means the getter itself raises.
   */
  function LeadershipImage(raw: string, settings: Settings, explicit: string -> Option<string>)
    : (r: Result<Option<string>, Raised>)
    ensures r == Ok(None) <==> Classify(raw) == Unset
    ensures Classify(raw) == AbsoluteUrl ==> r == Ok(Some(raw))
    ensures Classify(raw) == RemoteVersionedId && settings.cloudName.Some? ==>
      r == Ok(Some(UploadUrl(settings.cloudName.value, raw)))
    ensures r.Err? <==> Classify(raw) == RemoteVersionedId && settings.cloudName.None?
    // a legacy path: the lookup's answer, else the template over the derived
    // path, else (only when the cloud name is missing) the local media URL
    ensures Classify(raw) == LegacyLocalPath && explicit(DeriveRemotePath(raw)).Some? ==>
      r == Ok(explicit(DeriveRemotePath(raw)))
    ensures Classify(raw) == LegacyLocalPath && explicit(DeriveRemotePath(raw)).None? &&
            settings.cloudName.Some? ==>
      r == Ok(Some(UploadUrl(settings.cloudName.value, DeriveRemotePath(raw))))
    ensures Classify(raw) == LegacyLocalPath && explicit(DeriveRemotePath(raw)).None? &&
            settings.cloudName.None? ==>
      r == Ok(Some(settings.mediaUrl + raw))
  {
    if raw == [] then Ok(None)
    else if "http" <= raw then Ok(Some(raw))
    else if "v" <= raw then
      match settings.cloudName
      case Some(cloud) => Ok(Some(UploadUrl(cloud, raw)))
      case None => Err(MissingCloudName)
    else
      var path := DeriveRemotePath(raw);
      match explicit(path)
      case Some(secureUrl) => Ok(Some(secureUrl))
      case None =>
        match settings.cloudName
        case Some(cloud) => Ok(Some(UploadUrl(cloud, path)))
        case None => Ok(Some(settings.mediaUrl + raw))
  }

  /** Only a legacy path consults the remote store: every other value resolves the same whatever the store answers. */
  lemma ResolvesWithoutLookup(raw: string, settings: Settings, e1: string -> Option<string>, e2: string -> Option<string>)
    requires Classify(raw) != LegacyLocalPath
    ensures LeadershipImage(raw, settings, e1) == LeadershipImage(raw, settings, e2)
  {
  }

  /** The lookup is made with the derived path and nothing else: two stores that agree on it give the same URL. */
  lemma LookupOnlyAtDerivedPath(raw: string, settings: Settings, e1: string -> Option<string>, e2: string -> Option<string>)
    requires e1(DeriveRemotePath(raw)) == e2(DeriveRemotePath(raw))
    ensures LeadershipImage(raw, settings, e1) == LeadershipImage(raw, settings, e2)
  {
  }

  /** `ProductSerializer.get_image_url`: hard-coded cloud for 'v' ids, the storage URL for anything else set. */
  function ProductImageUrl(raw: string, storageUrl: string -> string): (r: Option<string>)
    ensures r.None? <==> Classify(raw) == Unset
    ensures Classify(raw) == RemoteVersionedId ==> r == Some(UploadUrl(HardcodedCloud, raw))
    ensures Classify(raw) in {AbsoluteUrl, LegacyLocalPath} ==> r == Some(storageUrl(raw))
  {
    if raw != [] && "v" <= raw then Some(UploadUrl(HardcodedCloud, raw))
    else if raw != [] then Some(storageUrl(raw))
    else None
  }

  /**
   * With the hard-coded cloud configured, the leadership and product getters
   * agree on unset values and versioned ids; they part ways on full URLs,
   * which only the leadership getter passes through.
   */
  lemma VersionedUrlsAgree(raw: string, mediaUrl: string, explicit: string -> Option<string>, storageUrl: string -> string)
    requires Classify(raw) in {Unset, RemoteVersionedId}
    ensures LeadershipImage(raw, Settings(Some(HardcodedCloud), mediaUrl), explicit) == Ok(ProductImageUrl(raw, storageUrl))
  {
  }

  /** A value of the validated-data dictionaries. */
  datatype Value = Str(s: string) | Num(n: real) | UserRef(id: nat)

  /** The table `MembershipSerializer.create` keeps of its own. */
  const SerializerAmounts: map<string, int> := map[
    "mwananchi" := 0,
    "bronze" := 5000,
    "silver" := 10000,
    "gold" := 25000,
    "platinum" := 50000
  ]

  /** `membership_amounts.get(membership_type, 0)` for the value read from the dictionary, if any. */
  function SerializerAmount(membershipType: Option<Value>): (a: int)
    ensures a >= 0
  {
    match membershipType
    case Some(Str(t)) => if t in SerializerAmounts then SerializerAmounts[t] else 0
    case _ => 0
  }

  /** `validated_data.get('membership_type')`. */
  function MembershipTypeOf(validated: map<string, Value>): Option<Value>
  {
    if "membership_type" in validated then Some(validated["membership_type"]) else None
  }

  /** The type name the model's `save` looks up, or "" when there is none. */
  function TypeName(membershipType: Option<Value>): string
  {
    match membershipType
    case Some(Str(t)) => t
    case _ => ""
  }

  /**
   * `MembershipSerializer.create`, up to the call that creates the record: the
   * dictionary it hands on. The amount always comes from the table, whatever
   * the client sent; a mwananchi membership is marked paid.
   */
  function MembershipCreateData(validated: map<string, Value>, authenticatedUser: Option<nat>)
    : (d: map<string, Value>)
    ensures "amount" in d && d["amount"] == Num(MembershipModel.TableAmount(TypeName(MembershipTypeOf(validated))))
    ensures MembershipTypeOf(validated) == Some(Str("mwananchi")) ==>
      "payment_status" in d && d["payment_status"] == Str("completed")
    ensures authenticatedUser.Some? ==> "user" in d && d["user"] == UserRef(authenticatedUser.value)
    ensures d.Keys == validated.Keys + {"amount"} +
                      (if authenticatedUser.Some? then {"user"} else {}) +
                      (if MembershipTypeOf(validated) == Some(Str("mwananchi")) then {"payment_status"} else {})
    ensures forall k :: k in validated && k != "amount" && k != "user" && k != "payment_status" ==> d[k] == validated[k]
    ensures MembershipTypeOf(d) == MembershipTypeOf(validated)
  {
    var withUser := if authenticatedUser.Some? then validated["user" := UserRef(authenticatedUser.value)] else validated;
    var membershipType := MembershipTypeOf(withUser);
    var withAmount := withUser["amount" := Num(SerializerAmount(membershipType) as real)];
    if membershipType == Some(Str("mwananchi")) then withAmount["payment_status" := Str("completed")]
    else withAmount
  }

  /**
   * The amount the serializer writes is already what `Membership.save` would
   * choose, so the save that follows the create keeps it.
   */
  lemma CreatedAmountSurvivesSave(validated: map<string, Value>, authenticatedUser: Option<nat>)
    ensures var d := MembershipCreateData(validated, authenticatedUser);
      MembershipModel.AmountAfterSave(TypeName(MembershipTypeOf(d)), Some(d["amount"].n)) == d["amount"].n
  {
  }

  datatype RegistrationError = PasswordMismatch

  /** `UserRegistrationSerializer.validate`: the two password fields, both required, must match. */
  function ValidateRegistration(attrs: map<string, Value>): (r: Result<map<string, Value>, RegistrationError>)
    requires "password" in attrs && "password2" in attrs
    ensures r.Ok? <==> attrs["password"] == attrs["password2"]
    ensures r.Ok? ==> r.value == attrs
  {
    if attrs["password"] != attrs["password2"] then Err(PasswordMismatch) else Ok(attrs)
  }

  /** `UserRegistrationSerializer.create`: the fields passed to `create_user`, the confirmation dropped. */
  function RegistrationUserFields(validated: map<string, Value>): (fields: map<string, Value>)
    requires "password2" in validated
    ensures fields.Keys == validated.Keys - {"password2"}
    ensures forall k :: k in fields ==> fields[k] == validated[k]
  {
    validated - {"password2"}
  }
}
