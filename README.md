# Send It for Slack — model of the sidebar's logic

A Dafny model of the small amount of sequential logic in the Safari sidebar extension
that sends the current page's URL to a Slack user, channel or group:

- **Team credential store** — `save(team:name:token:)` reads the `"teams"` preference
  (a list of `[String: String]` records with the keys `name`, `token`, `image`) and
  either writes a fresh one-record list, appends a record for a new name, or leaves
  the list alone when the name is already known.
- **Add-team flow** — `didTapOnAddTeamButton(teamName:token:)` swaps the API client's
  session token for the candidate, fetches the team info, and either saves the team
  (keeping the candidate active) or rolls the token back.
- **Directory** — the view models (`Channelable`), their projection from users,
  channels and groups, the merge done by `buildViewModel`, the fail-fast join done by
  `getAllChannels`, `checkChannel`'s choice of `MessageType` and `sendMessage`'s guards.
- **Channel mapper** — `ChannelDataModel.toModel()` in the SlackWebAPIKit pod, a
  field-by-field copy with optional mapping of the purpose and topic sub-records.

Files: `wrappers.dfy` (Option, Result), `channel_mapper.dfy` (module `ChannelMapper`),
`team_credentials.dfy` (module `TeamCredentials`: records, `arrayContains`, the
specification `AfterSave` of a save), `directory.dfy` (module `Directory`),
`view_controller.dfy` (module `Controller`: classes `ApiClient`, `Defaults` and
`ViewController`, whose methods change the session token, the preference and the
table in place and are proved against the functions of the other modules).

Modelling decisions:

- The network replies (team info, the three listings) are inputs of the methods:
  `TeamInfoReply` and `Result<seq<_>>`. The initialisers `UserViewModel.init`,
  `ChannelViewModel.init`, `GroupViewModel.init` and the purpose and topic mappers are
  not part of this model; they are function parameters. An initialiser is given the
  type `T -> Option<string>` (the name of the view model, or nil), so `flatMap` drops
  the entities it cannot project; when every projection succeeds the merge has exactly
  `|users| + |channels| + |groups|` entries.
- The team-info call is a function from the session token active when it is made to
  its reply, so the model states that the team info is fetched with the candidate
  token installed.
- `arrayContains(array:key:value:)` is defined outside the modelled files; it is
  treated as "some record maps `key` to `value`".
- The force unwrap `team.icon!` is modelled as a trap (`SaveOutcome.Crashed`, the
  `trapped` result of `Save`), not as a precondition: the code only unwraps the icon
  when it is about to write a record, so a duplicate name with no icon is a silent
  no-op, not a crash. A trapped save writes nothing.
- The field types of `ChannelDataModel` and `Channel` are declared outside the
  modelled files; they are modelled as optionals (`Option<int>`, `Option<string>`,
  `Option<bool>`), which a pure copy does not depend on.
- Where the model departs from what one might expect, it follows the code:
  the missing icon is only fatal when a record is written (above); the rollback sets
  the token to `""` when none was held, rather than restoring "no token"; and when no
  presenter exists (`presenter?.getTeamInfo()` is a no-op) the candidate token stays
  installed and nothing is fetched, saved or rolled back.

## Model

| member | source | states |
|---|---|---|
| `ChannelMapper.MapOptional` | Pods/SlackWebAPIKit/SlackWebAPIKit/Classes/Data/DataModels/Mappers/ChannelDataModel+Channel.swift:19-20 | optional chaining: the result is nil exactly when the input is nil, and otherwise the mapped value |
| `ChannelMapper.ToModel` | Pods/SlackWebAPIKit/SlackWebAPIKit/Classes/Data/DataModels/Mappers/ChannelDataModel+Channel.swift:4-21 | the identity and name are copied, and the purpose and topic are nil exactly when the input's are; the lemmas below give every other field |
| `ChannelMapper.ToModelPreservesIdentity` | Pods/SlackWebAPIKit/SlackWebAPIKit/Classes/Data/DataModels/Mappers/ChannelDataModel+Channel.swift:5-17 | `id`, `name`, `nameNormalized`, `created` and `creator` are copied unchanged |
| `ChannelMapper.ToModelPreservesFlags` | Pods/SlackWebAPIKit/SlackWebAPIKit/Classes/Data/DataModels/Mappers/ChannelDataModel+Channel.swift:8-15 | each of the eight `is…` flags is copied to the output field of the same name |
| `ChannelMapper.ToModelPreservesMemberCount` | Pods/SlackWebAPIKit/SlackWebAPIKit/Classes/Data/DataModels/Mappers/ChannelDataModel+Channel.swift:18 | `numMembers` is copied unchanged |
| `ChannelMapper.ToModelMapsPurpose` | Pods/SlackWebAPIKit/SlackWebAPIKit/Classes/Data/DataModels/Mappers/ChannelDataModel+Channel.swift:19 | the output purpose is nil exactly when the input purpose is nil, and otherwise the mapped input purpose |
| `ChannelMapper.ToModelMapsTopic` | Pods/SlackWebAPIKit/SlackWebAPIKit/Classes/Data/DataModels/Mappers/ChannelDataModel+Channel.swift:20 | the output topic is nil exactly when the input topic is nil, and otherwise the mapped input topic |
| `ChannelMapper.ToModelInjective` | Pods/SlackWebAPIKit/SlackWebAPIKit/Classes/Data/DataModels/Mappers/ChannelDataModel+Channel.swift:4-21 | the mapping loses no information: with one-to-one sub-record mappers, equal outputs come from equal inputs |
| `TeamCredentials.MakeRecord` | SlackfariExtension/UI/SafariExtensionViewController.swift:161 | a stored record has exactly the keys name, token and image, holding the given name, token and icon |
| `TeamCredentials.ArrayContains` | SlackfariExtension/UI/SafariExtensionViewController.swift:166 | some record of the list holds `key` with exactly `value`; a record without `key` matches nothing |
| `TeamCredentials.AfterSave` | SlackfariExtension/UI/SafariExtensionViewController.swift:159-171 | without a valid list exactly one record is written; a known name leaves the list unchanged; a new name appends exactly one record at the end, keeping the earlier ones in order; the icon is unwrapped (and traps when missing) exactly when a record is written; after any save that does not trap the name is present |
| `TeamCredentials.SaveKeepsStoreWellFormed` | SlackfariExtension/UI/SafariExtensionViewController.swift:166-168 | saving keeps every record with exactly the three keys and keeps names unique |
| `TeamCredentials.SaveIsIdempotent` | SlackfariExtension/UI/SafariExtensionViewController.swift:166 | saving the same name a second time, with any token or icon, changes nothing |
| `Controller.ViewController.Save` | SlackfariExtension/UI/SafariExtensionViewController.swift:159-171 | the preference changes exactly as `AfterSave` says, nothing is written on a trap, and a well-formed store stays well formed |
| `Controller.ApiClient.GetToken` | SlackfariExtension/UI/SafariExtensionViewController.swift:143 | reads the active session token, which may be absent |
| `Controller.ApiClient.SetToken` | SlackfariExtension/UI/SafariExtensionViewController.swift:144 | the given token becomes the active session token |
| `Controller.AddTeamEffectOf` | SlackfariExtension/UI/SafariExtensionViewController.swift:141-157 | the team info is fetched with the candidate token installed; the team is saved exactly when that fetch succeeds, with the given name and token, and the candidate stays active; otherwise the token held before is restored, or "" when there was none; without a presenter the candidate stays and nothing is saved |
| `Controller.FailedAddTeamRestoresToken` | SlackfariExtension/UI/SafariExtensionViewController.swift:143-151 | when the candidate token cannot fetch the team info, the token held before the flow is active again ("" when none was held) and nothing is saved |
| `Controller.ViewController.DidTapOnAddTeamButton` | SlackfariExtension/UI/SafariExtensionViewController.swift:141-157 | the fetch is made with the candidate token installed; the session token ends as `AddTeamEffectOf` says and the preference changes only through the requested save |
| `Directory.CheckChannel` | SlackfariExtension/UI/SafariExtensionViewController.swift:96-104 | total: a channel view model gives `.channel`, a group view model `.group`, anything else `.user` |
| `Directory.ViewModelOf` | SlackfariExtension/UI/SafariExtensionViewController.swift:90-92 | a view model built for a kind has that kind and that name |
| `Directory.ViewModelOfCheckChannel` | SlackfariExtension/UI/SafariExtensionViewController.swift:96-104 | the kind `checkChannel` reads back and the name determine the view model |
| `Directory.Project` | SlackfariExtension/UI/SafariExtensionViewController.swift:90-92 | every projected entry has the projection's kind; at most one entry per entity in total; when every entity projects, one entry per entity in source order |
| `Directory.ProjectOne` | SlackfariExtension/UI/SafariExtensionViewController.swift:90-92 | one entity gives its view model when its initialiser names it, and nothing when the initialiser gives nil |
| `Directory.ProjectAppend` | SlackfariExtension/UI/SafariExtensionViewController.swift:90-92 | projection works entity by entity: projecting a concatenation is concatenating the projections, so entries keep their entities' order |
| `Directory.ProjectNamesComeFromEntities` | SlackfariExtension/UI/SafariExtensionViewController.swift:90-92 | every projected entry is named after some entity of the source list |
| `Directory.ViewModels` | SlackfariExtension/UI/SafariExtensionViewController.swift:88-94 | the merge has at most, and when every projection succeeds exactly, as many entries as users, channels and groups together |
| `Directory.ViewModelsGroupedByKind` | SlackfariExtension/UI/SafariExtensionViewController.swift:93 | users come before channels, which come before groups |
| `Directory.ViewModelsInOrder` | SlackfariExtension/UI/SafariExtensionViewController.swift:90-93 | when every projection succeeds, the merge is each user's view model, then each channel's, then each group's, in the order received |
| `Directory.ExampleDirectory` | SlackfariExtension/UI/SafariExtensionViewController.swift:90-93 | user alice, channels general and random, no groups give alice, general, random in that order |
| `Directory.JoinListings` | SlackfariExtension/UI/SafariExtensionViewController.swift:76-84 | the join yields all three lists exactly when all three calls succeed, and nothing if any one fails |
| `Directory.SendMessage` | SlackfariExtension/UI/SafariExtensionViewController.swift:67-71 | a message is sent exactly when there is a url, a selected entry and a presenter; it is the url, sent to the selected entry's name with the kind `checkChannel` picks |
| `Controller.ViewController.SendMessage` | SlackfariExtension/UI/SafariExtensionViewController.swift:67-71 | the controller hands the presenter the request `Directory.SendMessage` describes, with no entry selected when there is no data provider |
| `Controller.ViewController.BuildViewModel` | SlackfariExtension/UI/SafariExtensionViewController.swift:88-94 | with a data provider its items become the merged directory; without one nothing changes |
| `Controller.ViewController.GetAllChannels` | SlackfariExtension/UI/SafariExtensionViewController.swift:74-86 | without a presenter, or when any listing fails, the table keeps its items; otherwise the merged directory of the three lists is shown |
| `Controller.ViewController.ViewWillAppear` | SlackfariExtension/UI/SafariExtensionViewController.swift:47-51 | a presenter exists afterwards and the directory is refreshed as `GetAllChannels` says |

## Left out

- Persistence: `UserDefaults` and `synchronize()` are an in-memory field (`Defaults.teams`); writes are immediate and never fail.
- The network calls through the presenter and `API.sharedInstance` (`getUsers`, `getChannels`, `getGroups`, `getTeamInfo`, `send`): their replies are method inputs, and the send is returned as a request rather than performed.
- RxSwift scheduling (`observeOn`, the timing of `combineLatest`), the `onCompleted` handler, the `[weak self]` guards and overlapping refreshes: the model has one reply per call and one controller that outlives it; concurrency is not modelled.
- Layout, animation and view handling: `addTeam`, `didTapOnCloseButton`, `configureTableView`, `configureCollectionView`, `reloadData` and the collection-view cell in `CollectionViewItem.swift`.
- `viewDidLoad`: its reset of the session token to `""` is not modelled; an `ApiClient` starts with whatever token it is given.
- The `print` calls that log sent messages, completion and errors are dropped.
- `TeamCredentials.ArrayContains`: names are compared code unit by code unit, while Swift's `String` equality compares by Unicode canonical equivalence, so two names that differ only in normalization are two names in the model (and `UniqueNames` counts them apart) but one name in the program.
- `getItem(at:)` of the table data provider is defined outside the modelled files: the entry it gives for the selected row is an input of `SendMessage`.
- The fields of `Team` other than `icon`, and the internals of the view-model initialisers and of the purpose and topic mappers, which are defined outside the modelled files.
- Error payloads of failed calls: they are only logged, so `Result.Failure` carries none.
