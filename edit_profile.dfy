/**
 * The edit-profile screen: the profile record, field updates, removal of a
 * specialty by position, and the edit/save/cancel mode switch.
 */
module EditProfile {

  /** The text fields of the profile, each bound to one input. */
  datatype Field = FirstName | LastName | Email | Phone | Location | Bio

  datatype Profile = Profile(
    firstName: string,
    lastName: string,
    email: string,
    phone: string,
    location: string,
    bio: string,
    specialties: seq<string>)

  const InitialProfile := Profile(
    "John", "Doe", "john.doe@example.com", "+234 801 234 5678", "Lagos, Nigeria",
    "Professional service provider with 5+ years of experience in home services.",
    ["Cleaning", "Plumbing", "Electrical"])

  function Get(p: Profile, f: Field): string {
    match f
    case FirstName => p.firstName
    case LastName => p.lastName
    case Email => p.email
    case Phone => p.phone
    case Location => p.location
    case Bio => p.bio
  }

  /** `updateField(f, v)`: field `f` becomes `v` and nothing else in the profile changes. */
  function WithField(p: Profile, f: Field, v: string): (r: Profile)
    ensures Get(r, f) == v
    ensures forall g :: g != f ==> Get(r, g) == Get(p, g)
    ensures r.specialties == p.specialties
  {
    match f
    case FirstName => p.(firstName := v)
    case LastName => p.(lastName := v)
    case Email => p.(email := v)
    case Phone => p.(phone := v)
    case Location => p.(location := v)
    case Bio => p.(bio := v)
  }

  /** Writing back a field's own value changes nothing, and a later write to the same field wins. */
  lemma WithFieldLaws(p: Profile, f: Field, v: string, w: string)
    ensures WithField(p, f, Get(p, f)) == p
    ensures WithField(WithField(p, f, v), f, w) == WithField(p, f, w)
  {
  }

  /** `s.filter((_, i) => i !== index)`: the element at `index` is dropped and the rest keep their order. */
  function RemoveAt(s: seq<string>, index: int): (r: seq<string>)
    ensures 0 <= index < |s| ==> r == s[..index] + s[index + 1..]
    ensures !(0 <= index < |s|) ==> r == s
  {
    if s == [] then []
    else (if index == 0 then [] else [s[0]]) + RemoveAt(s[1..], index - 1)
  }

  /** Removing the first of the initial specialties leaves the other two in order. */
  lemma RemoveFirstInitialSpecialty()
    ensures RemoveAt(InitialProfile.specialties, 0) == ["Plumbing", "Electrical"]
  {
  }

  /** What the screen hands to its caller. */
  datatype Request = SaveRequested(profile: Profile) | BackRequested

  /** The screen's state. */
  class EditProfileScreen {
    var profileData: Profile
    var isEditing: bool

    constructor ()
      ensures profileData == InitialProfile && !isEditing
    {
      profileData := InitialProfile;
      isEditing := false;
    }

    /** The text inputs are editable, and specialty removal and "Add Specialty" are offered, only while editing. */
    predicate InputsEnabled()
      reads this
    {
      isEditing
    }

    method HandleEdit()
      modifies this
      ensures isEditing && profileData == old(profileData)
    {
      isEditing := true;
    }

    /** Save: leaves edit mode and hands over the profile as it stands. */
    method HandleSave() returns (request: Request)
      modifies this
      ensures !isEditing && profileData == old(profileData)
      ensures request == SaveRequested(old(profileData))
    {
      isEditing := false;
      request := SaveRequested(profileData);
    }

    /** Cancel: leaves edit mode and goes back; nothing is saved and the edits stay in the record. */
    method HandleCancel() returns (request: Request)
      modifies this
      ensures !isEditing && profileData == old(profileData)
      ensures request == BackRequested
    {
      isEditing := false;
      request := BackRequested;
    }

    /** The change handler of a text input, which is editable only while editing. */
    method UpdateField(f: Field, v: string)
      requires InputsEnabled()
      modifies this
      ensures profileData == WithField(old(profileData), f, v) && isEditing == old(isEditing)
    {
      profileData := WithField(profileData, f, v);
    }

    /** The remove button on the specialty at `index`, rendered only while editing. */
    method RemoveSpecialty(index: nat)
      requires InputsEnabled()
      requires index < |profileData.specialties|
      modifies this
      ensures profileData == old(profileData).(specialties := RemoveAt(old(profileData).specialties, index))
      ensures |profileData.specialties| == |old(profileData).specialties| - 1
      ensures isEditing == old(isEditing)
    {
      profileData := profileData.(specialties := RemoveAt(profileData.specialties, index));
    }
  }
}
