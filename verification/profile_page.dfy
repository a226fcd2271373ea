/** The customer profile page: the stored customer document filled out with
    defaults, edited one field at a time while editing is on, and saved back
    without the identity fields. */
module ProfilePage {
  import opened JsValues
  import opened DocumentStore
  import opened UserActions
  import opened Ui

  /** The fields whose stored value is replaced by a default when falsy. */
  const Defaults: map<string, Value> := map[
    "address" := Str(""), "gender" := Str("Other"), "age" := Num(0.0),
    "height" := Num(175.0), "weight" := Num(70.0), "measurementUnit" := Str("cm"),
    "chest" := Num(98.0), "waist" := Num(82.0), "hips" := Num(104.0), "inseam" := Num(78.0)]

  /** The fields the save leaves out. */
  const IdentityKeys: set<string> := {"uid", "email", "avatarUrl", "role"}

  /** `data.k || default` for each defaulted field. */
  function Filled(data: Doc): (f: Doc)
    ensures f.Keys == Defaults.Keys
    ensures forall k :: k in Defaults ==>
      f[k] == (if k in data && Truthy(data[k]) then data[k] else Defaults[k])
  {
    map k | k in Defaults :: Or(Field(data, k), Defaults[k])
  }

  /** The identity fields are not among the defaulted ones. */
  lemma IdentityKeysNotDefaulted()
    ensures forall k :: k in Defaults ==> k !in {"uid", "fullName", "email", "avatarUrl", "role"}
  {
    assert Defaults.Keys == {"address", "gender", "age", "height", "weight", "measurementUnit", "chest", "waist", "hips", "inseam"};
  }

  /** The profile built from the stored document `data` of the signed-in `u`. */
  function LoadedProfile(u: AuthProfile, data: Doc): (p: Doc)
    ensures p.Keys == Defaults.Keys + {"uid", "fullName", "email", "avatarUrl", "role"}
    ensures "uid" in p && p["uid"] == Str(u.uid)
    ensures forall k :: k in Defaults ==>
      k in p && p[k] == (if k in data && Truthy(data[k]) then data[k] else Defaults[k])
    ensures "role" in p && p["role"] == Str("Fashion Enthusiast")
  {
    IdentityKeysNotDefaulted();
    Filled(data) + map[
      "uid" := Str(u.uid),
      "fullName" := Or(Field(data, "fullName"), Or(Field(data, "displayName"), Str("New User"))),
      "email" := Or(Field(data, "email"), Str(OrText(u.email, ""))),
      "avatarUrl" := Or(Field(data, "photoURL"), Str(OrText(u.photoURL, PicsumAvatar(u.uid)))),
      "role" := Str("Fashion Enthusiast")]
  }

  /** The displayed name is the stored full name, else the stored display name,
      else "New User"; the e-mail is the stored one, else the sign-in one, else
      empty; the avatar is the stored photo, else the sign-in photo, else a
      placeholder seeded by the uid. */
  lemma LoadedIdentity(u: AuthProfile, data: Doc)
    ensures var p := LoadedProfile(u, data);
      && (HasTruthy(data, "fullName") ==> p["fullName"] == data["fullName"])
      && (!HasTruthy(data, "fullName") && HasTruthy(data, "displayName") ==> p["fullName"] == data["displayName"])
      && (!HasTruthy(data, "fullName") && !HasTruthy(data, "displayName") ==> p["fullName"] == Str("New User"))
      && (HasTruthy(data, "email") ==> p["email"] == data["email"])
      && (!HasTruthy(data, "email") && u.email.Some? && u.email.value != "" ==> p["email"] == Str(u.email.value))
      && (!HasTruthy(data, "email") && (u.email.None? || u.email.value == "") ==> p["email"] == Str(""))
      && (HasTruthy(data, "photoURL") ==> p["avatarUrl"] == data["photoURL"])
      && (!HasTruthy(data, "photoURL") && u.photoURL.Some? && u.photoURL.value != "" ==> p["avatarUrl"] == Str(u.photoURL.value))
      && (!HasTruthy(data, "photoURL") && (u.photoURL.None? || u.photoURL.value == "") ==>
            p["avatarUrl"] == Str("https://picsum.photos/seed/" + u.uid + "/100/100"))
  {
  }

  predicate HasTruthy(data: Doc, k: string)
  {
    k in data && Truthy(data[k])
  }

  /** A stored 0 (or an absent field) is shown as the default, so a stored
      height of 0 displays as 175 and a stored age of 0 stays 0. */
  lemma StoredZeroReplaced(u: AuthProfile, data: Doc)
    requires "height" in data && data["height"] == Num(0.0)
    ensures LoadedProfile(u, data)["height"] == Num(175.0)
    ensures "age" !in data ==> LoadedProfile(u, data)["age"] == Num(0.0)
  {
  }

  /** The profile without its identity fields: what the save writes. */
  function StrippedProfile(p: Doc): (s: Doc)
    ensures s.Keys == p.Keys - IdentityKeys
    ensures forall k :: k in s ==> s[k] == p[k]
  {
    p - IdentityKeys
  }

  /** A loaded profile saves exactly its eleven profile fields. */
  lemma SavedFieldsOfLoaded(u: AuthProfile, data: Doc)
    ensures StrippedProfile(LoadedProfile(u, data)).Keys == Defaults.Keys + {"fullName"}
  {
    IdentityKeysNotDefaulted();
    var p := LoadedProfile(u, data);
    assert "fullName" !in IdentityKeys;
    assert forall k :: k in Defaults.Keys ==> k !in IdentityKeys;
  }

  /** `MeasurementSlider` bounds by label: [120, 220] for height, [40, 150] for
      weight, [50, 150] for the rest; the step is always 1. */
  function SliderBounds(name: string): (b: (real, real))
    ensures name == "Height" ==> b == (120.0, 220.0)
    ensures name == "Weight" ==> b == (40.0, 150.0)
    ensures name != "Height" && name != "Weight" ==> b == (50.0, 150.0)
    ensures b.0 < b.1
  {
    (if name == "Height" then 120.0 else if name == "Weight" then 40.0 else 50.0,
     if name == "Height" then 220.0 else if name == "Weight" then 150.0 else 150.0)
  }

  const SliderStep: real := 1.0

  const SliderFields: set<string> := {"height", "weight", "chest", "waist", "hips", "inseam"}
  const TextFields: set<string> := {"fullName", "address"}

  class Page {
    var user: Option<Doc>
    var isEditing: bool
    var isSaving: bool
    var isLoading: bool

    /** A loaded profile always carries its uid as a string; nothing is being
        saved between events. */
    ghost predicate Valid()
      reads this
    {
      (user.Some? ==> "uid" in user.value && user.value["uid"].Str?) && !isSaving
    }

    constructor ()
      ensures Valid() && user.None? && !isEditing && isLoading
    {
      user, isEditing, isSaving, isLoading := None, false, false, true;
    }

    /** The auth-state handler: a signed-in user with a customer document gets
        the filled-out profile; with no document the profile is left as it was;
        signing out clears it. */
    method Load(authUser: Option<AuthProfile>, db: Database)
      requires Valid()
      modifies this`user, this`isLoading
      ensures Valid() && !isLoading
      ensures authUser.None? ==> user.None?
      ensures authUser.Some? && GetDoc(db.docs, Customers, authUser.value.uid).Some? ==>
        user == Some(LoadedProfile(authUser.value, GetDoc(db.docs, Customers, authUser.value.uid).value))
      ensures authUser.Some? && GetDoc(db.docs, Customers, authUser.value.uid).None? ==> user == old(user)
    {
      if authUser.Some? {
        var userDocSnap := GetDoc(db.docs, Customers, authUser.value.uid);
        if userDocSnap.Some? {
          user := Some(LoadedProfile(authUser.value, userDocSnap.value));
        }
      } else {
        user := None;
      }
      isLoading := false;
    }

    /** The edit button, shown while not editing. */
    method StartEditing()
      requires Valid() && !isEditing
      modifies this`isEditing
      ensures Valid() && isEditing
    {
      isEditing := true;
    }

    /** `handleMeasurementChange(field)`: a slider (enabled only while editing)
        sets one numeric field to its first thumb's value. */
    method SliderChange(field: string, values: seq<real>)
      requires Valid() && isEditing && field in SliderFields && |values| >= 1
      modifies this`user
      ensures Valid()
      ensures old(user).None? ==> user.None?
      ensures old(user).Some? ==> user == Some(old(user).value[field := Num(values[0])])
    {
      if user.Some? {
        user := Some(user.value[field := Num(values[0])]);
      }
    }

    /** `handleUserChange`: an editable input (the full name or the address)
        sets its field to the typed text. */
    method TextChange(id: string, value: string)
      requires Valid() && isEditing && id in TextFields
      modifies this`user
      ensures Valid()
      ensures old(user).None? ==> user.None?
      ensures old(user).Some? ==> user == Some(old(user).value[id := Str(value)])
    {
      if user.Some? {
        user := Some(user.value[id := Str(value)]);
      }
    }

    /** `handleSave`: without a profile nothing happens. Otherwise the profile
        minus its identity fields is merged into the customer document; editing
        ends only on success. */
    method Save(db: Database, writeFails: bool) returns (toast: Option<Toast>)
      requires Valid() && isEditing
      modifies this`isSaving, this`isEditing, db
      ensures Valid()
      ensures old(user).None? ==> toast.None? && isEditing && db.docs == old(db.docs)
      ensures user.Some? && writeFails ==>
        toast == Some(Toast("Error", "Failed to save profile.", true)) && isEditing && db.docs == old(db.docs)
      ensures user.Some? && !writeFails ==>
        toast == Some(Toast("Success", "Your profile has been updated.", false)) && !isEditing &&
        db.docs == MergeWrite(old(db.docs), Customers, user.value["uid"].s, StrippedProfile(user.value))
    {
      if user.None? {
        return None;
      }
      isSaving := true;
      var uid := user.value["uid"].s;
      var profileData := StrippedProfile(user.value);
      if writeFails {
        toast := Some(Toast("Error", "Failed to save profile.", true));
      } else {
        db.SetMerge(Customers, uid, profileData);
        isEditing := false;
        toast := Some(Toast("Success", "Your profile has been updated.", false));
      }
      isSaving := false;
    }
  }
}
