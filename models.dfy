/**
 * The stored records. Ids are the database's ObjectIds, kept opaque: the model only
 * compares them. Dates are integer milliseconds since the epoch; money is a real.
 */
module Models {
  import opened Wrappers
  import Js

  type Id = string

  datatype Channel = Channel(id: Id, name: string, status: string)

  datatype Campaign = Campaign(id: Id, name: string, channel: Id, startDate: int, endDate: int, budget: real)

  /** A user: the email as it was given at registration and the password hash. */
  datatype User = User(id: Id, email: Js.Value, password: string)

  /** The fields of a new channel or campaign, as the ORM has cast them from the request body. */
  datatype ChannelData = ChannelData(name: string, status: string)

  datatype CampaignData = CampaignData(name: string, channel: Id, startDate: int, endDate: int, budget: real)

  /** A partial update: the fields present in the request, cast by the ORM. */
  datatype ChannelPatch = ChannelPatch(name: Option<string>, status: Option<string>)

  datatype CampaignPatch = CampaignPatch(
    name: Option<string>, channel: Option<Id>, startDate: Option<int>, endDate: Option<int>, budget: Option<real>)

  function Override<T>(current: T, update: Option<T>): T
  {
    match update
    case None => current
    case Some(v) => v
  }

  function PatchChannel(c: Channel, p: ChannelPatch): (r: Channel)
    ensures r.id == c.id
    ensures r.name == (if p.name.Some? then p.name.value else c.name)
    ensures r.status == (if p.status.Some? then p.status.value else c.status)
  {
    Channel(c.id, Override(c.name, p.name), Override(c.status, p.status))
  }

  function PatchCampaign(c: Campaign, p: CampaignPatch): (r: Campaign)
    ensures r.id == c.id
    ensures r.name == (if p.name.Some? then p.name.value else c.name)
    ensures r.channel == (if p.channel.Some? then p.channel.value else c.channel)
    ensures r.startDate == (if p.startDate.Some? then p.startDate.value else c.startDate)
    ensures r.endDate == (if p.endDate.Some? then p.endDate.value else c.endDate)
    ensures r.budget == (if p.budget.Some? then p.budget.value else c.budget)
  {
    Campaign(c.id, Override(c.name, p.name), Override(c.channel, p.channel),
             Override(c.startDate, p.startDate), Override(c.endDate, p.endDate), Override(c.budget, p.budget))
  }

  /** A `$set` with no fields changes nothing, and applying the same `$set` twice is applying it once. */
  lemma PatchChannelIdentityIdempotent(c: Channel, p: ChannelPatch)
    ensures PatchChannel(c, ChannelPatch(None, None)) == c
    ensures PatchChannel(PatchChannel(c, p), p) == PatchChannel(c, p)
  {
  }

  lemma PatchCampaignIdentityIdempotent(c: Campaign, p: CampaignPatch)
    ensures PatchCampaign(c, CampaignPatch(None, None, None, None, None)) == c
    ensures PatchCampaign(PatchCampaign(c, p), p) == PatchCampaign(c, p)
  {
  }

  /** Patches commute when they set disjoint fields. */
  lemma PatchCampaignDisjointCommute(c: Campaign, p: CampaignPatch, q: CampaignPatch)
    requires p.name.None? || q.name.None?
    requires p.channel.None? || q.channel.None?
    requires p.startDate.None? || q.startDate.None?
    requires p.endDate.None? || q.endDate.None?
    requires p.budget.None? || q.budget.None?
    ensures PatchCampaign(PatchCampaign(c, p), q) == PatchCampaign(PatchCampaign(c, q), p)
  {
  }
}
