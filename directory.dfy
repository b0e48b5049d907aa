/** The directory of users, channels and groups shown in the sidebar: the view
    models, their projection from the wire entities, the join of the three listing
    calls, the choice of message kind and the guards of sending. */
module Directory {
  import opened Wrappers

  /** `MessageType`: the addressing scheme a message is sent with. */
  datatype MessageType = User | Channel | Group

  /** `Channelable`: a displayable, sendable-to entry. Each variant wraps one wire
      entity; only its name is used downstream. */
  datatype Channelable = UserViewModel(name: string) | ChannelViewModel(name: string) | GroupViewModel(name: string)

  /** `checkChannel(type:)`: channel view models are sent as channels, group view
      models as groups, and everything else as users. */
  function CheckChannel(c: Channelable): (t: MessageType)
    ensures t == Channel <==> c.ChannelViewModel?
    ensures t == Group <==> c.GroupViewModel?
    ensures t == User <==> !c.ChannelViewModel? && !c.GroupViewModel?
  {
    if c.ChannelViewModel? then Channel
    else if c.GroupViewModel? then Group
    else User
  }

  /** The view model of the given kind: the initialiser `UserViewModel.init`,
      `ChannelViewModel.init` or `GroupViewModel.init` once it has named its entity. */
  function ViewModelOf(kind: MessageType, name: string): (c: Channelable)
    ensures CheckChannel(c) == kind && c.name == name
  {
    match kind
    case User => UserViewModel(name)
    case Channel => ChannelViewModel(name)
    case Group => GroupViewModel(name)
  }

  /** A view model is determined by its kind and its name. */
  lemma ViewModelOfCheckChannel(c: Channelable)
    ensures ViewModelOf(CheckChannel(c), c.name) == c
  {
  }

  /** Every projection of the wire entities `s` succeeds. */
  ghost predicate Total<T>(s: seq<T>, init: T -> Option<string>)
  {
    forall j :: 0 <= j < |s| ==> init(s[j]).Some?
  }

  /** The entries one entity contributes: its view model, or none when `init` gives nil. */
  function ProjectEntity<T>(x: T, init: T -> Option<string>, kind: MessageType): seq<Channelable>
  {
    match init(x)
    case Some(n) => [ViewModelOf(kind, n)]
    case None => []
  }

  /** `s.flatMap(XViewModel.init)`: each entity is projected by `init` to the name of
      its view model, in order; an entity for which `init` gives nil is dropped. */
  function Project<T>(s: seq<T>, init: T -> Option<string>, kind: MessageType): (r: seq<Channelable>)
    ensures |r| <= |s|
    ensures forall i :: 0 <= i < |r| ==> CheckChannel(r[i]) == kind
    ensures Total(s, init) ==> |r| == |s| && forall i :: 0 <= i < |r| ==> r[i] == ViewModelOf(kind, init(s[i]).value)
    decreases |s|
  {
    if s == [] then []
    else
      var head := ProjectEntity(s[0], init, kind);
      var tail := Project(s[1..], init, kind);
      assert Total(s, init) ==> Total(s[1..], init) && |head| == 1;
      head + tail
  }

  /** Every projected entry is named after some entity of the source list. */
  lemma {:induction false} ProjectNamesComeFromEntities<T>(s: seq<T>, init: T -> Option<string>, kind: MessageType)
    ensures forall c :: c in Project(s, init, kind) ==> exists x :: x in s && init(x) == Some(c.name)
    decreases |s|
  {
    if s != [] {
      ProjectNamesComeFromEntities(s[1..], init, kind);
      var head, tail := ProjectEntity(s[0], init, kind), Project(s[1..], init, kind);
      assert Project(s, init, kind) == head + tail;
      forall c: Channelable | c in head + tail ensures exists x :: x in s && init(x) == Some(c.name) {
        if c in head {
          assert s[0] in s && init(s[0]) == Some(c.name);
        } else {
          var x :| x in s[1..] && init(x) == Some(c.name);
          assert x in s;
        }
      }
    }
  }

  /** Projecting one entity gives its view model when `init` names it, and nothing
      when `init` gives nil. */
  lemma ProjectOne<T>(x: T, init: T -> Option<string>, kind: MessageType)
    ensures Project([x], init, kind) == if init(x).Some? then [ViewModelOf(kind, init(x).value)] else []
  {
    assert [x][1..] == [];
  }

  /** Projection works entity by entity: projecting two lists one after the other is
      projecting each and concatenating, so the entries keep the order of their
      entities and each entity contributes at most one entry. */
  lemma {:induction false} ProjectAppend<T>(s: seq<T>, t: seq<T>, init: T -> Option<string>, kind: MessageType)
    ensures Project(s + t, init, kind) == Project(s, init, kind) + Project(t, init, kind)
    decreases |s|
  {
    if s == [] {
      assert s + t == t;
    } else {
      assert (s + t)[0] == s[0];
      assert (s + t)[1..] == s[1..] + t;
      calc {
        Project(s + t, init, kind);
        ProjectEntity(s[0], init, kind) + Project(s[1..] + t, init, kind);
        { ProjectAppend(s[1..], t, init, kind); }
        ProjectEntity(s[0], init, kind) + (Project(s[1..], init, kind) + Project(t, init, kind));
        Project(s, init, kind) + Project(t, init, kind);
      }
    }
  }

  /** The merged directory built by `buildViewModel`: the user view models, then the
      channel view models, then the group view models. */
  function ViewModels<U, C, G>(users: seq<U>, channels: seq<C>, groups: seq<G>,
                               userInit: U -> Option<string>, channelInit: C -> Option<string>,
                               groupInit: G -> Option<string>): (r: seq<Channelable>)
    ensures |r| <= |users| + |channels| + |groups|
    ensures Total(users, userInit) && Total(channels, channelInit) && Total(groups, groupInit) ==>
      |r| == |users| + |channels| + |groups|
  {
    Project(users, userInit, User) + Project(channels, channelInit, Channel) + Project(groups, groupInit, Group)
  }

  /** The position of a kind in the merged directory. */
  function Rank(t: MessageType): (n: nat)
    ensures n < 3
  {
    match t
    case User => 0
    case Channel => 1
    case Group => 2
  }

  /** Users strictly precede channels, which strictly precede groups. */
  lemma ViewModelsGroupedByKind<U, C, G>(users: seq<U>, channels: seq<C>, groups: seq<G>,
                                                            ui: U -> Option<string>, ci: C -> Option<string>,
                                                            gi: G -> Option<string>)
    ensures var r := ViewModels(users, channels, groups, ui, ci, gi);
      forall i, j :: 0 <= i < j < |r| ==> Rank(CheckChannel(r[i])) <= Rank(CheckChannel(r[j]))
  {
    var pu, pc, pg := Project(users, ui, User), Project(channels, ci, Channel), Project(groups, gi, Group);
    var r := ViewModels(users, channels, groups, ui, ci, gi);
    assert r == pu + pc + pg;
    var a, b := |pu|, |pu| + |pc|;
    forall i | 0 <= i < |r|
      ensures Rank(CheckChannel(r[i])) == if i < a then 0 else if i < b then 1 else 2
    {
      if i < a { assert r[i] == pu[i]; }
      else if i < b { assert r[i] == pc[i - a]; }
      else { assert r[i] == pg[i - b]; }
    }
    forall i, j | 0 <= i < j < |r| ensures Rank(CheckChannel(r[i])) <= Rank(CheckChannel(r[j])) {
    }
  }

  /** When every entity projects, the merged directory lists the view model of each
      user, then of each channel, then of each group, each in the order received. */
  lemma ViewModelsInOrder<U, C, G>(users: seq<U>, channels: seq<C>, groups: seq<G>,
                                                      ui: U -> Option<string>, ci: C -> Option<string>,
                                                      gi: G -> Option<string>)
    requires Total(users, ui) && Total(channels, ci) && Total(groups, gi)
    ensures var r := ViewModels(users, channels, groups, ui, ci, gi);
      && (forall i :: 0 <= i < |users| ==> r[i] == UserViewModel(ui(users[i]).value))
      && (forall i :: 0 <= i < |channels| ==> r[|users| + i] == ChannelViewModel(ci(channels[i]).value))
      && (forall i :: 0 <= i < |groups| ==> r[|users| + |channels| + i] == GroupViewModel(gi(groups[i]).value))
  {
    var pu, pc, pg := Project(users, ui, User), Project(channels, ci, Channel), Project(groups, gi, Group);
    var r := ViewModels(users, channels, groups, ui, ci, gi);
    assert r == pu + pc + pg;
    forall i | 0 <= i < |users| ensures r[i] == UserViewModel(ui(users[i]).value) {
      assert r[i] == pu[i];
    }
    forall i | 0 <= i < |channels| ensures r[|users| + i] == ChannelViewModel(ci(channels[i]).value) {
      assert r[|users| + i] == pc[i];
    }
    forall i | 0 <= i < |groups| ensures r[|users| + |channels| + i] == GroupViewModel(gi(groups[i]).value) {
      assert r[|users| + |channels| + i] == pg[i];
    }
  }

  /** One user "alice", the channels "general" and "random" and no groups give the
      entries alice, general, random in that order. */
  lemma ExampleDirectory()
    ensures
      var named := (n: string) => Some(n);
      ViewModels(["alice"], ["general", "random"], [], named, named, named)
        == [UserViewModel("alice"), ChannelViewModel("general"), ChannelViewModel("random")]
  {
    var named := (n: string) => Some(n);
    assert Project(["alice"], named, User) == [UserViewModel("alice")] by {
      assert ["alice"][1..] == [];
    }
    assert Project(["general", "random"], named, Channel) == [ChannelViewModel("general"), ChannelViewModel("random")] by {
      assert ["general", "random"][1..] == ["random"];
      assert ["random"][1..] == [];
    }
  }

  /** The three listing results joined by `combineLatest`. */
  datatype Listings<U, C, G> = Listings(users: seq<U>, channels: seq<C>, groups: seq<G>)

  /** The join of the three listing calls: it delivers all three lists, or nothing
      at all as soon as any one of the calls fails. */
  function JoinListings<U, C, G>(users: Result<seq<U>>, channels: Result<seq<C>>, groups: Result<seq<G>>): (r: Option<Listings<U, C, G>>)
    ensures r.Some? <==> users.Success? && channels.Success? && groups.Success?
    ensures r.Some? ==> r.value == Listings(users.value, channels.value, groups.value)
  {
    if users.Failure? || channels.Failure? || groups.Failure? then None
    else Some(Listings(users.value, channels.value, groups.value))
  }

  /** The call `send(message:toChannel:withType:)` hands to the presenter. */
  datatype SendRequest = SendRequest(message: string, channel: string, kind: MessageType)

  /** `sendMessage(_:)`: the page's `url` is the message. Nothing is sent without a
      url, without a selected entry or without a presenter; otherwise the message
      goes to the selected entry's name with the kind `checkChannel` picks. */
  function SendMessage(url: Option<string>, selected: Option<Channelable>, hasPresenter: bool): (r: Option<SendRequest>)
    ensures r.Some? <==> url.Some? && selected.Some? && hasPresenter
    ensures r.Some? ==> r.value.message == url.value && r.value.channel == selected.value.name
    ensures r.Some? ==> (r.value.kind == Channel <==> selected.value.ChannelViewModel?)
    ensures r.Some? ==> (r.value.kind == Group <==> selected.value.GroupViewModel?)
    ensures r.Some? ==> (r.value.kind == User <==> selected.value.UserViewModel?)
  {
    if url.None? || selected.None? || !hasPresenter then None
    else Some(SendRequest(url.value, selected.value.name, CheckChannel(selected.value)))
  }
}
