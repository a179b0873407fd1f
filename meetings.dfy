/**
 * The meeting entity the store holds (`MeetingModel`): its id and its two participants never
 * change, while the profile shown beside it is set in place by the selectors (`setProfile`).
 */
module Meetings {
  import opened Wrappers

  /** A participant's profile as the profile store returns it; only its id matters here. */
  datatype Profile = Profile(profileId: string)

  class MeetingModel {
    const id: string
    const requestedBy: string
    const requestedTo: string
    var profile: Option<Profile>

    constructor (id: string, requestedBy: string, requestedTo: string, profile: Option<Profile>)
      ensures this.id == id && this.requestedBy == requestedBy && this.requestedTo == requestedTo
      ensures this.profile == profile
    {
      this.id := id;
      this.requestedBy := requestedBy;
      this.requestedTo := requestedTo;
      this.profile := profile;
    }

    /** `setProfile`: the profile is replaced, possibly by `undefined`. */
    method SetProfile(p: Option<Profile>)
      modifies this
      ensures profile == p
    {
      profile := p;
    }

    /** The meeting's fields as a value. */
    function Data(): MeetingData
      reads this
    {
      MeetingData(id, requestedBy, requestedTo, profile)
    }
  }

  /** A meeting's fields at one moment: what a copy made with `ObjectMapper.deserialize` holds. */
  datatype MeetingData = MeetingData(id: string, requestedBy: string, requestedTo: string, profile: Option<Profile>)

  /** The meetings of a list as values. */
  function Snapshot(ms: seq<MeetingModel>): (r: seq<MeetingData>)
    reads ms
    ensures |r| == |ms|
    ensures forall k :: 0 <= k < |ms| ==> r[k] == ms[k].Data()
  {
    seq(|ms|, k requires 0 <= k < |ms| reads ms => ms[k].Data())
  }
}
