/** The customer's measurement page: six measurements, defaults until the
    stored ones load, single-field edits from the measurement card, and a save
    that hands `{ measurements }` to `updateUserProfile`. */
module MeasurementPage {
  import opened JsValues
  import opened DocumentStore
  import opened UserActions
  import opened Ui
  import MeasurementCard

  /** `defaultMeasurements` */
  const DefaultMeasurements: map<string, real> := map[
    "Shoulder" := 45.0, "Chest" := 98.0, "Waist" := 82.0,
    "Hips" := 104.0, "Inseam" := 78.0, "Sleeve" := 62.0]

  /** The record the save hands to `updateUserProfile`. */
  function SavePayload(m: map<string, real>): Doc
  {
    map["measurements" := Measures(m)]
  }

  /** Saving writes the measurements object and the update stamp, and nothing
      else. */
  lemma SavedFields(m: map<string, real>)
    ensures ProfileData(SavePayload(m)) == map["measurements" := Measures(m), "updatedAt" := ServerTimestamp]
  {
    var data := SavePayload(m);
    assert !HasPart(data, "house");
    ProfileDataAt(data, "measurements");
    ProfileDataAt(data, "updatedAt");
    forall k | k in ProfileData(data) ensures k == "measurements" || k == "updatedAt" {
      ProfileDataAt(data, k);
    }
  }

  class Page {
    var measurements: map<string, real>
    var user: Option<string>
    var isLoading: bool
    var isSaving: bool

    constructor ()
      ensures measurements == DefaultMeasurements && user.None? && isLoading && !isSaving
    {
      measurements, user, isLoading, isSaving := DefaultMeasurements, None, true, false;
    }

    /** The auth-state handler. For a signed-in user the stored measurements
        replace the current ones only when the customer document exists and
        holds a `measurements` object; a signed-out visitor is sent to the
        customer login. */
    method Load(authUid: Option<string>, db: Database) returns (route: Option<string>)
      modifies this`user, this`measurements, this`isLoading
      ensures !isLoading
      ensures authUid.None? ==>
        route == Some("/customer/login") && user == old(user) && measurements == old(measurements)
      ensures authUid.Some? ==> route.None? && user == authUid
      ensures authUid.Some? ==>
        var d := GetDoc(db.docs, Customers, authUid.value);
        if d.Some? && "measurements" in d.value && d.value["measurements"].Measures? then
          measurements == d.value["measurements"].m
        else measurements == old(measurements)
    {
      route := None;
      if authUid.Some? {
        user := authUid;
        var userDocSnap := GetDoc(db.docs, Customers, authUid.value);
        if userDocSnap.Some? && "measurements" in userDocSnap.value && userDocSnap.value["measurements"].Measures? {
          measurements := userDocSnap.value["measurements"].m;
        }
      } else {
        route := Some("/customer/login");
      }
      isLoading := false;
    }

    /** `handleMeasurementChange(field, value)`: only the named measurement changes. */
    method MeasurementChange(field: MeasurementCard.Measurement, value: real)
      modifies this`measurements
      ensures measurements == old(measurements)[MeasurementCard.Name(field) := value]
      ensures forall k :: k != MeasurementCard.Name(field) ==>
        (k in measurements <==> k in old(measurements)) &&
        (k in measurements ==> measurements[k] == old(measurements)[k])
    {
      measurements := measurements[MeasurementCard.Name(field) := value];
    }

    /** `handleSave`: without a user, an error toast and no write; otherwise
        the measurements go through `updateUserProfile`, and `isSaving` is
        false again afterwards whatever the outcome. */
    method Save(db: Database, writeFails: bool) returns (toast: Toast)
      requires !isSaving
      modifies this`isSaving, db
      ensures !isSaving
      ensures user.None? ==> toast == Toast("Error", "You must be logged in.", true) && db.docs == old(db.docs)
      ensures user.Some? && (user.value == "" || writeFails) ==>
        toast == Toast("Save Failed", "There was a problem saving your measurements.", true) &&
        db.docs == old(db.docs)
      ensures user.Some? && user.value != "" && !writeFails ==>
        toast == Toast("Measurements Saved!", "Your measurements have been updated successfully.", false) &&
        db.docs == MergeWrite(old(db.docs), Customers, user.value, ProfileData(SavePayload(measurements)))
    {
      if user.None? {
        return Toast("Error", "You must be logged in.", true);
      }
      isSaving := true;
      var outcome := UpdateUserProfile(db, user.value, SavePayload(measurements), writeFails);
      if outcome == Done {
        toast := Toast("Measurements Saved!", "Your measurements have been updated successfully.", false);
      } else {
        toast := Toast("Save Failed", "There was a problem saving your measurements.", true);
      }
      isSaving := false;
    }
  }
}
