/** `actualizar_perfil_parcial`: a partial profile update restricted to a
    whitelist of fields. */
module Profiles {
  import Accounts

  type UserId = Accounts.UserId
  type Fields = map<string, string>

  const Whitelist: set<string> := {"telephone", "dni", "address"}

  /** The request data restricted to the whitelist. */
  function Permitted(data: Fields): (r: Fields)
    ensures r.Keys <= Whitelist
    ensures forall k :: k in r ==> k in data && r[k] == data[k]
    ensures forall k :: k in data && k in Whitelist ==> k in r
  {
    map k | k in data && k in Whitelist :: data[k]
  }

  /** A partial update writes the permitted fields over the profile. */
  function Merge(profile: Fields, data: Fields): Fields {
    profile + Permitted(data)
  }

  /** A partial update touches only the whitelisted fields the request
      carries: every other field, inside the whitelist or not, keeps its
      presence and value, and every whitelisted field of the request is
      stored. */
  lemma MergeKeepsOtherFields(profile: Fields, data: Fields)
    ensures var m := Merge(profile, data);
      && (forall k :: !(k in data && k in Whitelist) ==> (k in m <==> k in profile) && (k in profile ==> m[k] == profile[k]))
      && (forall k :: k in data && k in Whitelist ==> k in m && m[k] == data[k])
  {
  }

  datatype ProfileOutcome =
    | ProfileUpdated(profile: Fields)   // 200
    | ProfileNotFound                   // 404
    | NoPermittedFields                 // 400
    | ProfileFailed                     // 500: the serializer rejected the data
  {
    function Code(): int {
      match this
      case ProfileUpdated(_) => 200
      case ProfileNotFound => 404
      case NoPermittedFields => 400
      case ProfileFailed => 500
    }
  }

  class ProfileTable {
    var profiles: map<UserId, Fields>

    constructor (profiles: map<UserId, Fields>)
      ensures this.profiles == profiles
    {
      this.profiles := profiles;
    }

    /** `valid` is whether `ProfileSerializer(..., partial=True)` accepts
        the permitted data; its `ValidationError` reaches the generic
        handler (500). The profile is looked up before the data is read. */
    method UpdatePartial(user: UserId, data: Fields, valid: bool) returns (out: ProfileOutcome)
      modifies this
      ensures user !in old(profiles) ==> out == ProfileNotFound
      ensures user in old(profiles) && Permitted(data) == map[] ==> out == NoPermittedFields
      ensures user in old(profiles) && Permitted(data) != map[] && !valid ==> out == ProfileFailed && out.Code() == 500
      ensures out.ProfileUpdated? <==> user in old(profiles) && Permitted(data) != map[] && valid
      ensures out.ProfileUpdated? ==>
        profiles == old(profiles)[user := Merge(old(profiles)[user], data)] && out.profile == profiles[user]
      ensures !out.ProfileUpdated? ==> profiles == old(profiles)
    {
      if user !in profiles {
        return ProfileNotFound;
      }
      var permitted := Permitted(data);
      if permitted == map[] {
        return NoPermittedFields;
      }
      if !valid {
        return ProfileFailed;
      }
      profiles := profiles[user := profiles[user] + permitted];
      out := ProfileUpdated(profiles[user]);
    }
  }
}
