/** The mapper from the wire record of a channel to the domain record of a channel
    (`ChannelDataModel.toModel()`). */
module ChannelMapper {
  import opened Wrappers

  /** The channel as it arrives from the network. `PD` and `TD` are the wire records
      of the purpose and the topic, whose fields this model does not need. */
  datatype ChannelDataModel<PD, TD> = ChannelDataModel(
    created: Option<int>,
    creator: Option<string>,
    id: Option<string>,
    isArchived: Option<bool>,
    isChannel: Option<bool>,
    isGeneral: Option<bool>,
    isMember: Option<bool>,
    isMPIM: Option<bool>,
    isOrgShared: Option<bool>,
    isPrivate: Option<bool>,
    isShared: Option<bool>,
    name: Option<string>,
    nameNormalized: Option<string>,
    numMembers: Option<int>,
    purpose: Option<PD>,
    topic: Option<TD>)

  /** The channel as the rest of the library sees it. `P` and `T` are the domain
      records of the purpose and the topic. */
  datatype Channel<P, T> = Channel(
    created: Option<int>,
    creator: Option<string>,
    id: Option<string>,
    isArchived: Option<bool>,
    isChannel: Option<bool>,
    isGeneral: Option<bool>,
    isMember: Option<bool>,
    isMPIM: Option<bool>,
    isOrgShared: Option<bool>,
    isPrivate: Option<bool>,
    isShared: Option<bool>,
    name: Option<string>,
    nameNormalized: Option<string>,
    numMembers: Option<int>,
    purpose: Option<P>,
    topic: Option<T>)

  /** Swift's optional chaining `x?.f()`: nil stays nil, a value is mapped. */
  function MapOptional<A, B>(x: Option<A>, f: A -> B): (r: Option<B>)
    ensures r.None? <==> x.None?
    ensures x.Some? ==> r == Some(f(x.value))
  {
    match x
    case None => None
    case Some(v) => Some(f(v))
  }

  /** `ChannelDataModel.toModel()`. The mappers of the purpose and the topic records
      are not part of this model; they are passed in as `purposeToModel` and
      `topicToModel`. */
  function ToModel<PD, TD, P, T>(d: ChannelDataModel<PD, TD>, purposeToModel: PD -> P, topicToModel: TD -> T): (c: Channel<P, T>)
    ensures c.id == d.id && c.name == d.name
    ensures c.purpose.None? <==> d.purpose.None?
    ensures c.topic.None? <==> d.topic.None?
  {
    Channel(d.created, d.creator, d.id,
            d.isArchived, d.isChannel, d.isGeneral, d.isMember,
            d.isMPIM, d.isOrgShared, d.isPrivate, d.isShared,
            d.name, d.nameNormalized, d.numMembers,
            MapOptional(d.purpose, purposeToModel),
            MapOptional(d.topic, topicToModel))
  }

  /** The identity fields, the name fields and the creation data pass through unchanged. */
  lemma ToModelPreservesIdentity<PD, TD, P, T>(d: ChannelDataModel<PD, TD>, fp: PD -> P, ft: TD -> T)
    ensures var c := ToModel(d, fp, ft);
      c.id == d.id && c.name == d.name && c.nameNormalized == d.nameNormalized &&
      c.created == d.created && c.creator == d.creator
  {
  }

  /** Each of the eight `is…` flags lands in the output field of the same name. */
  lemma ToModelPreservesFlags<PD, TD, P, T>(d: ChannelDataModel<PD, TD>, fp: PD -> P, ft: TD -> T)
    ensures var c := ToModel(d, fp, ft);
      c.isArchived == d.isArchived && c.isChannel == d.isChannel &&
      c.isGeneral == d.isGeneral && c.isMember == d.isMember &&
      c.isMPIM == d.isMPIM && c.isOrgShared == d.isOrgShared &&
      c.isPrivate == d.isPrivate && c.isShared == d.isShared
  {
  }

  /** The member count passes through unchanged. */
  lemma ToModelPreservesMemberCount<PD, TD, P, T>(d: ChannelDataModel<PD, TD>, fp: PD -> P, ft: TD -> T)
    ensures ToModel(d, fp, ft).numMembers == d.numMembers
  {
  }

  /** The purpose is absent in the output exactly when it is absent in the input,
      and otherwise it is the mapped input purpose. */
  lemma ToModelMapsPurpose<PD, TD, P, T>(d: ChannelDataModel<PD, TD>, fp: PD -> P, ft: TD -> T)
    ensures ToModel(d, fp, ft).purpose.None? <==> d.purpose.None?
    ensures d.purpose.Some? ==> ToModel(d, fp, ft).purpose == Some(fp(d.purpose.value))
  {
  }

  /** The topic is absent in the output exactly when it is absent in the input,
      and otherwise it is the mapped input topic. */
  lemma ToModelMapsTopic<PD, TD, P, T>(d: ChannelDataModel<PD, TD>, fp: PD -> P, ft: TD -> T)
    ensures ToModel(d, fp, ft).topic.None? <==> d.topic.None?
    ensures d.topic.Some? ==> ToModel(d, fp, ft).topic == Some(ft(d.topic.value))
  {
  }

  /** The mapping loses nothing: when the purpose and topic mappers are one-to-one,
      two wire records with the same domain record are the same wire record. */
  lemma ToModelInjective<PD, TD, P, T>(d1: ChannelDataModel<PD, TD>, d2: ChannelDataModel<PD, TD>, fp: PD -> P, ft: TD -> T)
    requires forall x, y :: fp(x) == fp(y) ==> x == y
    requires forall x, y :: ft(x) == ft(y) ==> x == y
    requires ToModel(d1, fp, ft) == ToModel(d2, fp, ft)
    ensures d1 == d2
  {
    assert d1.purpose == d2.purpose by {
      if d1.purpose.Some? && d2.purpose.Some? {
        assert fp(d1.purpose.value) == fp(d2.purpose.value);
      }
    }
    assert d1.topic == d2.topic by {
      if d1.topic.Some? && d2.topic.Some? {
        assert ft(d1.topic.value) == ft(d2.topic.value);
      }
    }
  }
}
