/** The team credentials persisted under the preferences key "teams", and what
    `save(team:name:token:)` does to them. */
module TeamCredentials {
  import opened Wrappers

  /** One persisted team: a `[String: String]` dictionary. */
  type TeamRecord = map<string, string>

  /** The team as the team-info call returns it; only its icon is used here. */
  datatype Team = Team(icon: Option<string>)

  /** What reading "teams" and casting it with `as? [[String: String]]` gives:
      nothing stored, something stored that is not a list of string dictionaries,
      or such a list. */
  datatype StoredTeams = Absent | NotTeamList | TeamList(records: seq<TeamRecord>)

  /** The result of a save: it either traps on the force-unwrapped `team.icon!`,
      leaving the preferences as they were, or leaves `teams` in the preferences. */
  datatype SaveOutcome = Crashed | Stored(teams: StoredTeams)

  /** The dictionary literal `["name": name, "token": token, "image": image]`. */
  function MakeRecord(name: string, token: string, image: string): (r: TeamRecord)
    ensures r.Keys == {"name", "token", "image"}
    ensures r["name"] == name && r["token"] == token && r["image"] == image
  {
    map["name" := name, "token" := token, "image" := image]
  }

  /** `arrayContains(array:key:value:)`: some record of `records` maps `key` to `value`.
      A record without `key` gives nil, which equals no string. */
  predicate ArrayContains(records: seq<TeamRecord>, key: string, value: string)
    ensures ArrayContains(records, key, value) <==> exists r :: r in records && key in r && r[key] == value
  {
    exists i :: 0 <= i < |records| && key in records[i] && records[i][key] == value
  }

  /** Every record has exactly the three keys that `save` writes. */
  ghost predicate WellShaped(records: seq<TeamRecord>)
  {
    forall i :: 0 <= i < |records| ==> records[i].Keys == {"name", "token", "image"}
  }

  /** No two records share a name. */
  ghost predicate UniqueNames(records: seq<TeamRecord>)
  {
    forall i, j :: 0 <= i < j < |records| && "name" in records[i] && "name" in records[j] ==>
      records[i]["name"] != records[j]["name"]
  }

  /** The preferences hold a list that `save` alone could have produced. */
  ghost predicate WellFormedStore(stored: StoredTeams)
  {
    stored.TeamList? ==> WellShaped(stored.records) && UniqueNames(stored.records)
  }

  /** What `save(team:name:token:)` leaves in the preferences, given what was
      there before and the team's icon. */
  function AfterSave(stored: StoredTeams, icon: Option<string>, name: string, token: string): (o: SaveOutcome)
    // The icon is unwrapped exactly when a record is about to be written.
    ensures o.Crashed? <==> icon.None? && !(stored.TeamList? && ArrayContains(stored.records, "name", name))
    // A save that does not trap always leaves a list that holds the name.
    ensures o.Stored? ==> o.teams.TeamList? && ArrayContains(o.teams.records, "name", name)
    // Without a valid list, exactly one fresh record is written.
    ensures o.Stored? && !stored.TeamList? ==> o.teams.records == [MakeRecord(name, token, icon.value)]
    // With a list, records are only ever appended at the end, and at most one.
    ensures o.Stored? && stored.TeamList? ==>
      |stored.records| <= |o.teams.records| <= |stored.records| + 1 &&
      o.teams.records[..|stored.records|] == stored.records
    // A known name leaves the list as it was; a new name appends its record.
    ensures stored.TeamList? && ArrayContains(stored.records, "name", name) ==> o == Stored(stored)
    ensures o.Stored? && stored.TeamList? && !ArrayContains(stored.records, "name", name) ==>
      o.teams.records == stored.records + [MakeRecord(name, token, icon.value)]
  {
    match stored
    case TeamList(records) =>
      if ArrayContains(records, "name", name) then Stored(stored)
      else if icon.None? then Crashed
      else
        var teams := records + [MakeRecord(name, token, icon.value)];
        assert teams[|records|] == MakeRecord(name, token, icon.value);
        assert teams[..|records|] == records;
        Stored(TeamList(teams))
    case _ =>
      if icon.None? then Crashed
      else
        var teams := [MakeRecord(name, token, icon.value)];
        assert teams[0]["name"] == name;
        Stored(TeamList(teams))
  }

  /** Saving keeps the store well formed: every record has exactly the keys
      name, token and image, and the names stay unique. */
  lemma SaveKeepsStoreWellFormed(stored: StoredTeams, icon: Option<string>, name: string, token: string)
    requires WellFormedStore(stored)
    ensures AfterSave(stored, icon, name, token).Stored? ==> WellFormedStore(AfterSave(stored, icon, name, token).teams)
  {
    var o := AfterSave(stored, icon, name, token);
    if o.Stored? && stored.TeamList? && !ArrayContains(stored.records, "name", name) {
      var old_ := stored.records;
      var rec := MakeRecord(name, token, icon.value);
      var teams := o.teams.records;
      assert teams == old_ + [rec];
      forall i, j | 0 <= i < j < |teams| && "name" in teams[i] && "name" in teams[j]
        ensures teams[i]["name"] != teams[j]["name"]
      {
        if j == |old_| {
          assert teams[i] == old_[i];
          assert teams[j] == rec;
        } else {
          assert teams[i] == old_[i] && teams[j] == old_[j];
        }
      }
      forall i | 0 <= i < |teams| ensures teams[i].Keys == {"name", "token", "image"} {
        if i < |old_| { assert teams[i] == old_[i]; }
      }
    }
  }

  /** Saving the same name again, with any token and icon, changes nothing. */
  lemma SaveIsIdempotent(stored: StoredTeams, icon: Option<string>, icon2: Option<string>, name: string, token: string, token2: string)
    requires AfterSave(stored, icon, name, token).Stored?
    ensures var after := AfterSave(stored, icon, name, token).teams;
      AfterSave(after, icon2, name, token2) == Stored(after)
  {
  }
}
