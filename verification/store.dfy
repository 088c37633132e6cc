/** The storage layer the recommender reads and writes, as an in-memory store:
    citizen profiles by user id, the scheme catalogue, and each user's
    recommendation rows. */
module Store {
  import opened Wrappers
  import opened Domain

  /** A persisted recommendation row (`createdAt` is not modelled). */
  datatype Row = Row(id: nat, userId: string, schemeId: string, score: int, reason: string)

  /** The first catalogue scheme with the given id. */
  function FindScheme(catalogue: seq<Scheme>, id: string): (r: Option<Scheme>)
    ensures r.Some? ==> r.value in catalogue && r.value.id == id
    ensures r.None? <==> forall i :: 0 <= i < |catalogue| ==> catalogue[i].id != id
  {
    if catalogue == [] then None
    else if catalogue[0].id == id then Some(catalogue[0])
    else FindScheme(catalogue[1..], id)
  }

  class Storage {
    var profiles: map<string, CitizenProfile>
    var schemes: seq<Scheme>
    var recommendations: map<string, seq<Row>>
    var nextId: nat

    constructor (profiles: map<string, CitizenProfile>, schemes: seq<Scheme>)
      ensures this.profiles == profiles && this.schemes == schemes
      ensures recommendations == map[] && nextId == 0
    {
      this.profiles := profiles;
      this.schemes := schemes;
      recommendations := map[];
      nextId := 0;
    }

    /** The stored profile of a user, or none for an unknown user. */
    function GetCitizenProfile(userId: string): (r: Option<CitizenProfile>)
      reads this
      ensures r.None? <==> userId !in profiles
      ensures r.Some? ==> r.value == profiles[userId]
    {
      if userId in profiles then Some(profiles[userId]) else None
    }

    /** A catalogue scheme with the given id, or none when no scheme has it. */
    function GetSchemeById(id: string): (r: Option<Scheme>)
      reads this
      ensures r.Some? ==> r.value in schemes && r.value.id == id
      ensures r.None? <==> forall s :: s in schemes ==> s.id != id
    {
      FindScheme(schemes, id)
    }

    /** A user's rows; a user without rows has none. */
    function GetRecommendationsByUserId(userId: string): (r: seq<Row>)
      reads this
      ensures userId in recommendations ==> r == recommendations[userId]
      ensures userId !in recommendations ==> r == []
    {
      if userId in recommendations then recommendations[userId] else []
    }

    method DeleteRecommendationsByUserId(userId: string)
      modifies this
      ensures recommendations == old(recommendations)[userId := []]
      ensures profiles == old(profiles) && schemes == old(schemes) && nextId == old(nextId)
    {
      recommendations := recommendations[userId := []];
    }

    /** Appends a row with a fresh id to the user's rows. */
    method CreateRecommendation(userId: string, schemeId: string, score: int, reason: string) returns (row: Row)
      modifies this
      ensures row == Row(old(nextId), userId, schemeId, score, reason)
      ensures recommendations == old(recommendations)[userId := old(GetRecommendationsByUserId(userId)) + [row]]
      ensures profiles == old(profiles) && schemes == old(schemes) && nextId == old(nextId) + 1
    {
      row := Row(nextId, userId, schemeId, score, reason);
      recommendations := recommendations[userId := GetRecommendationsByUserId(userId) + [row]];
      nextId := nextId + 1;
    }
  }
}
