/** The profile server actions: `createUserProfile`, run after every sign-in,
    and `updateUserProfile`, which merges edited fields into a customer's
    document and derives a one-line address from its five parts. */
module UserActions {
  import opened JsValues
  import opened DocumentStore

  /** The signed-in identity handed to `createUserProfile`; `None` is `null`. */
  datatype AuthProfile = AuthProfile(
    uid: string,
    email: Option<string>,
    displayName: Option<string>,
    photoURL: Option<string>,
    phoneNumber: Option<string>)

  /** `'customer' | 'tailor'` */
  datatype Role = Customer | Tailor

  function RoleName(role: Role): string
  {
    match role
    case Customer => "customer"
    case Tailor => "tailor"
  }

  /** `/${role}/dashboard` */
  function Dashboard(role: Role): string
  {
    "/" + RoleName(role) + "/dashboard"
  }

  /** How an action ends: normally, or by throwing an error with a message. */
  datatype Outcome = Done | Thrown(message: string)

  /** `role === 'customer' ? 'customers' : 'tailors'` */
  function CollectionFor(role: string): (c: string)
    ensures c == Customers <==> role == "customer"
    ensures c == Tailors <==> role != "customer"
  {
    if role == "customer" then Customers else Tailors
  }

  /** The record `createUserProfile` merges into the user's document. */
  function CreatePayload(u: AuthProfile, role: string): Doc
  {
    map[
      "uid" := Str(u.uid),
      "email" := NullableText(u.email),
      "displayName" := NullableText(u.displayName),
      "photoURL" := NullableText(u.photoURL),
      "phoneNumber" := NullableText(u.phoneNumber),
      "createdAt" := ServerTimestamp,
      "role" := Str(role)]
  }

  /** `createUserProfile(userData, role)`: both guards run before any write;
      the record goes to `customers` for a customer and to `tailors` for any
      other role; a failed write is rethrown with a fixed message. */
  method CreateUserProfile(db: Database, u: AuthProfile, role: string, writeFails: bool) returns (r: Outcome)
    modifies db
    ensures u.uid == "" ==> r == Thrown("User UID is required.") && db.docs == old(db.docs)
    ensures u.uid != "" && role == "" ==> r == Thrown("User role is required.") && db.docs == old(db.docs)
    ensures u.uid != "" && role != "" && writeFails ==>
      r == Thrown("Failed to create user profile.") && db.docs == old(db.docs)
    ensures u.uid != "" && role != "" && !writeFails ==>
      r == Done && db.docs == MergeWrite(old(db.docs), CollectionFor(role), u.uid, CreatePayload(u, role))
  {
    if u.uid == "" {
      return Thrown("User UID is required.");
    }
    if role == "" {
      return Thrown("User role is required.");
    }
    var collectionName := CollectionFor(role);
    if writeFails {
      return Thrown("Failed to create user profile.");
    }
    db.SetMerge(collectionName, u.uid, CreatePayload(u, role));
    r := Done;
  }

  /** After a successful create, the user's document holds the identity, the
      role and a fresh `createdAt` (overwriting an earlier one), and keeps
      every other field it had. */
  lemma CreatedRecord(store: Store, u: AuthProfile, role: string, k: string)
    requires u.uid != "" && role != ""
    ensures var d := GetDoc(MergeWrite(store, CollectionFor(role), u.uid, CreatePayload(u, role)), CollectionFor(role), u.uid);
      && d.Some?
      && d.value["uid"] == Str(u.uid)
      && d.value["email"] == NullableText(u.email)
      && d.value["displayName"] == NullableText(u.displayName)
      && d.value["photoURL"] == NullableText(u.photoURL)
      && d.value["phoneNumber"] == NullableText(u.phoneNumber)
      && d.value["createdAt"] == ServerTimestamp
      && d.value["role"] == Str(role)
      && (k !in CreatePayload(u, role) && k in Existing(store, CollectionFor(role), u.uid) ==>
            k in d.value && d.value[k] == Existing(store, CollectionFor(role), u.uid)[k])
  {
    var p := CreatePayload(u, role);
    assert "uid" in p && "email" in p && "displayName" in p && "photoURL" in p;
    assert "phoneNumber" in p && "createdAt" in p && "role" in p;
  }

  // ---------------------------------------------------------------------------
  // updateUserProfile

  const AddressParts: set<string> := {"house", "street", "city", "state", "zip"}

  /** An address part that is present: a non-empty string. */
  predicate HasPart(data: Doc, k: string)
  {
    k in data && data[k].Str? && data[k].s != ""
  }

  /** `house && street && city && st && zip` */
  predicate HasFullAddress(data: Doc)
  {
    HasPart(data, "house") && HasPart(data, "street") && HasPart(data, "city") &&
    HasPart(data, "state") && HasPart(data, "zip")
  }

  /** `${house}, ${street}, ${city}, ${st} ${zip}` */
  function FormattedAddress(data: Doc): string
    requires HasFullAddress(data)
  {
    data["house"].s + ", " + data["street"].s + ", " + data["city"].s + ", " +
    data["state"].s + " " + data["zip"].s
  }

  predicate CompletedFlag(data: Doc)
  {
    "onboardingCompleted" in data && Truthy(data["onboardingCompleted"])
  }

  /** What the update writes to field `k`, or `None` when it leaves `k` out. */
  function ProfileField(data: Doc, k: string): Option<Value>
  {
    if k == "updatedAt" then Some(ServerTimestamp)
    else if k == "onboardingCompleted" && CompletedFlag(data) then Some(Bool(true))
    else if k in AddressParts then (if HasFullAddress(data) then Some(data[k]) else None)
    else if k == "address" && HasFullAddress(data) then Some(Str(FormattedAddress(data)))
    else Field(data, k)
  }

  /** The payload `updateUserProfile` writes, field by field. */
  function ProfileData(data: Doc): Doc
  {
    map k | k in data.Keys + {"updatedAt", "address"} && ProfileField(data, k).Some? :: ProfileField(data, k).value
  }

  lemma ProfileDataAt(data: Doc, k: string)
    ensures k in ProfileData(data) <==> ProfileField(data, k).Some?
    ensures k in ProfileData(data) ==> ProfileData(data)[k] == ProfileField(data, k).value
  {
    if ProfileField(data, k).Some? {
      assert k in data.Keys + {"updatedAt", "address"};
    }
  }

  /** Builds `profileData` as the source does: the rest of the input without the
      five address parts, then the derived address and the parts, then the
      completion flag, then the timestamp. */
  method BuildProfileData(data: Doc) returns (p: Doc)
    ensures p == ProfileData(data)
  {
    p := data - AddressParts;
    if HasFullAddress(data) {
      p := p["address" := Str(FormattedAddress(data))];
      p := p["house" := data["house"]];
      p := p["street" := data["street"]];
      p := p["city" := data["city"]];
      p := p["state" := data["state"]];
      p := p["zip" := data["zip"]];
    }
    if CompletedFlag(data) {
      p := p["onboardingCompleted" := Bool(true)];
    }
    p := p["updatedAt" := ServerTimestamp];
    forall k ensures (k in p <==> k in ProfileData(data)) && (k in p ==> p[k] == ProfileData(data)[k]) {
      ProfileDataAt(data, k);
    }
  }

  /** With all five parts present, the one-line address is derived (replacing
      any address passed in) and all five parts are written. */
  lemma AddressDerived(data: Doc)
    requires HasFullAddress(data)
    ensures "address" in ProfileData(data)
    ensures ProfileData(data)["address"] ==
      Str(data["house"].s + ", " + data["street"].s + ", " + data["city"].s + ", " + data["state"].s + " " + data["zip"].s)
    ensures forall k :: k in AddressParts ==> k in ProfileData(data) && ProfileData(data)[k] == data[k]
  {
    ProfileDataAt(data, "address");
    forall k | k in AddressParts ensures k in ProfileData(data) && ProfileData(data)[k] == data[k] {
      ProfileDataAt(data, k);
    }
  }

  /** With any part missing or empty, no part is written and no address is
      derived; an address passed in goes through untouched. */
  lemma PartialAddressDropped(data: Doc)
    requires !HasFullAddress(data)
    ensures forall k :: k in AddressParts ==> k !in ProfileData(data)
    ensures "address" in ProfileData(data) <==> "address" in data
    ensures "address" in data ==> ProfileData(data)["address"] == data["address"]
  {
    ProfileDataAt(data, "address");
    forall k | k in AddressParts ensures k !in ProfileData(data) {
      ProfileDataAt(data, k);
    }
  }

  /** Every other field is copied unchanged; a truthy completion flag becomes
      `true` and a falsy one passes through; `updatedAt` is always stamped. */
  lemma OtherFieldsCopied(data: Doc, k: string)
    ensures k !in AddressParts && k !in {"address", "onboardingCompleted", "updatedAt"} ==>
      (k in ProfileData(data) <==> k in data) && (k in data ==> ProfileData(data)[k] == data[k])
    ensures CompletedFlag(data) ==> ProfileData(data)["onboardingCompleted"] == Bool(true)
    ensures !CompletedFlag(data) ==>
      ("onboardingCompleted" in ProfileData(data) <==> "onboardingCompleted" in data) &&
      ("onboardingCompleted" in data ==> ProfileData(data)["onboardingCompleted"] == data["onboardingCompleted"])
    ensures ProfileData(data)["updatedAt"] == ServerTimestamp
  {
    ProfileDataAt(data, k);
    ProfileDataAt(data, "onboardingCompleted");
    ProfileDataAt(data, "updatedAt");
  }

  /** `updateUserProfile(uid, data)`: an empty uid throws before anything is
      written; otherwise the payload is merged into `customers/uid`, and a
      failed write is rethrown with a fixed message. */
  method UpdateUserProfile(db: Database, uid: string, data: Doc, writeFails: bool) returns (r: Outcome)
    modifies db
    ensures uid == "" ==> r == Thrown("User UID is required to update profile.") && db.docs == old(db.docs)
    ensures uid != "" && writeFails ==> r == Thrown("Failed to update user profile.") && db.docs == old(db.docs)
    ensures uid != "" && !writeFails ==> r == Done && db.docs == MergeWrite(old(db.docs), Customers, uid, ProfileData(data))
  {
    if uid == "" {
      return Thrown("User UID is required to update profile.");
    }
    var profileData := BuildProfileData(data);
    if writeFails {
      return Thrown("Failed to update user profile.");
    }
    db.SetMerge(Customers, uid, profileData);
    r := Done;
  }
}
