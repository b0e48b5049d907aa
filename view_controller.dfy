/** The sidebar's view controller (`SafariExtensionViewController`) with the state it
    changes: the API client's session token, the "teams" preference and the rows of
    the table. */
module Controller {
  import opened Wrappers
  import opened TeamCredentials
  import opened Directory

  /** The shared API client (`API.sharedInstance`); only its session token is modelled. */
  class ApiClient {
    var token: Option<string>

    constructor (token: Option<string>)
      ensures this.token == token
    {
      this.token := token;
    }

    /** `getToken()`. */
    method GetToken() returns (t: Option<string>)
      ensures t == token
    {
      t := token;
    }

    /** `set(token:)`. */
    method SetToken(t: string)
      modifies this
      ensures token == Some(t)
    {
      token := Some(t);
    }
  }

  /** The preferences (`UserDefaults.standard`); only the "teams" key is modelled. */
  class Defaults {
    var teams: StoredTeams

    constructor (teams: StoredTeams)
      ensures this.teams == teams
    {
      this.teams := teams;
    }
  }

  /** The answer of the team-info call of the add-team flow. */
  datatype TeamInfoReply = TeamInfo(team: Team) | TeamInfoFailed

  /** The team-info call (`getTeamInfo()`): the answer the server gives for the
      session token that is active when the call is made. */
  type TeamInfoFetch = Option<string> -> TeamInfoReply

  /** The arguments of the call to `save(team:name:token:)`. */
  datatype SaveCall = SaveCall(team: Team, name: string, token: string)

  /** The effect of `didTapOnAddTeamButton(teamName:token:)`: the session token it
      leaves active and the save it requests, if any. */
  datatype AddTeamEffect = AddTeamEffect(activeToken: Option<string>, save: Option<SaveCall>)

  /** The add-team state machine: the prior token is put aside and the candidate is
      installed; then, if a presenter exists, the team info is fetched under the
      candidate. Success saves the team under the given name and token and keeps the
      candidate active; failure restores the prior token, or "" when there was none. */
  function AddTeamEffectOf(prior: Option<string>, teamName: string, token: string,
                           fetch: TeamInfoFetch, hasPresenter: bool): (e: AddTeamEffect)
    // Without a presenter nothing is fetched and the candidate stays installed.
    ensures !hasPresenter ==> e == AddTeamEffect(Some(token), None)
    // The team is saved exactly when the fetch made with the candidate token succeeds.
    ensures hasPresenter ==> (e.save.Some? <==> fetch(Some(token)).TeamInfo?)
    ensures e.save.Some? ==>
      e.activeToken == Some(token) && e.save.value == SaveCall(fetch(Some(token)).team, teamName, token)
    // Otherwise the token held before the flow is back, or "" when none was held.
    ensures hasPresenter && e.save.None? ==> e.activeToken == Some(prior.GetOr(""))
  {
    if !hasPresenter then AddTeamEffect(Some(token), None)
    else match fetch(Some(token))
      case TeamInfo(team) => AddTeamEffect(Some(token), Some(SaveCall(team, teamName, token)))
      case TeamInfoFailed => AddTeamEffect(Some(prior.GetOr("")), None)
  }

  /** A failed attempt to add a team is undone: when the candidate token cannot fetch
      the team info, the token held before the flow is active again (or "" when none
      was held), and nothing is saved. */
  lemma FailedAddTeamRestoresToken(prior: Option<string>, teamName: string, token: string, fetch: TeamInfoFetch)
    requires fetch(Some(token)).TeamInfoFailed?
    ensures var e := AddTeamEffectOf(prior, teamName, token, fetch, true);
      e.save.None? && (prior.Some? ==> e.activeToken == prior) && (prior.None? ==> e.activeToken == Some(""))
  {
  }

  class ViewController {
    const api: ApiClient
    const defaults: Defaults
    /** Whether `presenter` is set (it is created by `viewWillAppear`). */
    var hasPresenter: bool
    /** The items of the table's data provider; None while there is no data provider. */
    var tableItems: Option<seq<Channelable>>

    constructor (api: ApiClient, defaults: Defaults, tableItems: Option<seq<Channelable>>)
      ensures this.api == api && this.defaults == defaults
      ensures !hasPresenter && this.tableItems == tableItems
    {
      this.api := api;
      this.defaults := defaults;
      this.hasPresenter := false;
      this.tableItems := tableItems;
    }

    /** `save(team:name:token:)`: the store changes as `AfterSave` says; on a
        trap (`trapped`) nothing was written. */
    method Save(team: Team, name: string, token: string) returns (trapped: bool)
      modifies defaults
      ensures var o := AfterSave(old(defaults.teams), team.icon, name, token);
        trapped == o.Crashed? && defaults.teams == (if trapped then old(defaults.teams) else o.teams)
      ensures WellFormedStore(old(defaults.teams)) ==> WellFormedStore(defaults.teams)
    {
      if WellFormedStore(defaults.teams) {
        SaveKeepsStoreWellFormed(defaults.teams, team.icon, name, token);
      }
      trapped := false;
      match defaults.teams
      case TeamList(records) =>
        var teams := records;
        if !ArrayContains(teams, "name", name) {
          if team.icon.None? {
            trapped := true;
            return;
          }
          teams := teams + [MakeRecord(name, token, team.icon.value)];
          defaults.teams := TeamList(teams);
        }
      case _ =>
        if team.icon.None? {
          trapped := true;
          return;
        }
        defaults.teams := TeamList([MakeRecord(name, token, team.icon.value)]);
    }

    /** `didTapOnAddTeamButton(teamName:token:)`, with the team-info call as input.
        The token and the store end up as `AddTeamEffectOf` and `AfterSave` say. */
    method DidTapOnAddTeamButton(teamName: string, token: string, fetch: TeamInfoFetch) returns (trapped: bool)
      modifies api, defaults
      ensures var e := AddTeamEffectOf(old(api.token), teamName, token, fetch, hasPresenter);
        && api.token == e.activeToken
        && (e.save.None? ==> !trapped && defaults.teams == old(defaults.teams))
        && (e.save.Some? ==>
              var o := AfterSave(old(defaults.teams), e.save.value.team.icon, teamName, token);
              trapped == o.Crashed? && defaults.teams == (if trapped then old(defaults.teams) else o.teams))
    {
      var savedToken := api.GetToken();
      api.SetToken(token);
      trapped := false;
      if hasPresenter {
        var session := api.GetToken();
        match fetch(session)
        case TeamInfo(team) =>
          trapped := Save(team, teamName, token);
        case TeamInfoFailed =>
          api.SetToken(savedToken.GetOr(""));
      }
    }

    /** `buildViewModel(users:channels:groups:)`: with a data provider, its items
        become the merged directory; without one nothing happens. */
    method BuildViewModel<U, C, G>(users: seq<U>, channels: seq<C>, groups: seq<G>,
                                   userInit: U -> Option<string>, channelInit: C -> Option<string>,
                                   groupInit: G -> Option<string>)
      modifies this
      ensures hasPresenter == old(hasPresenter)
      ensures old(tableItems).None? ==> tableItems.None?
      ensures old(tableItems).Some? ==>
        tableItems == Some(ViewModels(users, channels, groups, userInit, channelInit, groupInit))
    {
      if tableItems.None? {
        return;
      }
      tableItems := Some(ViewModels(users, channels, groups, userInit, channelInit, groupInit));
    }

    /** `getAllChannels()` with the three listing replies as inputs. Without a
        presenter, or when any listing fails, the table keeps its items. */
    method GetAllChannels<U, C, G>(users: Result<seq<U>>, channels: Result<seq<C>>, groups: Result<seq<G>>,
                                   userInit: U -> Option<string>, channelInit: C -> Option<string>,
                                   groupInit: G -> Option<string>)
      modifies this
      ensures hasPresenter == old(hasPresenter)
      ensures !hasPresenter || JoinListings(users, channels, groups).None? ==> tableItems == old(tableItems)
      ensures hasPresenter && JoinListings(users, channels, groups).Some? ==>
        var j := JoinListings(users, channels, groups).value;
        tableItems == (if old(tableItems).None? then None
                       else Some(ViewModels(j.users, j.channels, j.groups, userInit, channelInit, groupInit)))
    {
      if !hasPresenter {
        return;
      }
      var joined := JoinListings(users, channels, groups);
      if joined.Some? {
        BuildViewModel(joined.value.users, joined.value.channels, joined.value.groups,
                       userInit, channelInit, groupInit);
      }
    }

    /** `viewWillAppear()`: a presenter is created and the directory is fetched. */
    method ViewWillAppear<U, C, G>(users: Result<seq<U>>, channels: Result<seq<C>>, groups: Result<seq<G>>,
                                   userInit: U -> Option<string>, channelInit: C -> Option<string>,
                                   groupInit: G -> Option<string>)
      modifies this
      ensures hasPresenter
      ensures JoinListings(users, channels, groups).None? ==> tableItems == old(tableItems)
      ensures JoinListings(users, channels, groups).Some? ==>
        var j := JoinListings(users, channels, groups).value;
        tableItems == (if old(tableItems).None? then None
                       else Some(ViewModels(j.users, j.channels, j.groups, userInit, channelInit, groupInit)))
    {
      hasPresenter := true;
      GetAllChannels(users, channels, groups, userInit, channelInit, groupInit);
    }

    /** `sendMessage(_:)` with the page url and the entry the data provider gives for
        the selected row as inputs: the request handed to the presenter, if any.
        Without a data provider (`dataProvider?.getItem`) no entry is selected. */
    method SendMessage(url: Option<string>, selected: Option<Channelable>) returns (request: Option<SendRequest>)
      ensures request == Directory.SendMessage(url, if tableItems.None? then None else selected, hasPresenter)
    {
      request := None;
      if url.None? {
        return;
      }
      if tableItems.None? || selected.None? {
        return;
      }
      var kind := CheckChannel(selected.value);
      if hasPresenter {
        request := Some(SendRequest(url.value, selected.value.name, kind));
      }
    }
  }
}
