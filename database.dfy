/**
 * The document store behind the services, reduced to what the services observe: each
 * collection is a sequence of documents in storage order, and each driver call either
 * throws the error it is given (`failure`) and changes nothing, or does its work.
 * New ObjectIds come from the driver; the model takes them as parameters.
 */
module Database {
  import opened Wrappers
  import opened Models
  import Js

  /** The position of the first document whose id, as read by `idOf`, is this id, if any. */
  function IndexOfId<T>(docs: seq<T>, idOf: T -> Id, id: Id): (r: Option<nat>)
    ensures r.Some? ==> r.value < |docs| && idOf(docs[r.value]) == id
    ensures r.None? ==> forall i :: 0 <= i < |docs| ==> idOf(docs[i]) != id
  {
    if docs == [] then None
    else if idOf(docs[0]) == id then Some(0)
    else match IndexOfId(docs[1..], idOf, id)
      case None => None
      case Some(i) => Some(i + 1)
  }

  function ChannelId(c: Channel): Id { c.id }

  function CampaignId(c: Campaign): Id { c.id }

  /** The position of the channel with this id, if any. */
  function ChannelIndex(docs: seq<Channel>, id: Id): Option<nat>
  {
    IndexOfId(docs, ChannelId, id)
  }

  /** The position of the campaign with this id, if any. */
  function CampaignIndex(docs: seq<Campaign>, id: Id): Option<nat>
  {
    IndexOfId(docs, CampaignId, id)
  }

  /** A document appended under an id no other document has is found at the end. */
  lemma {:induction false} IndexOfAppended<T>(docs: seq<T>, idOf: T -> Id, c: T)
    requires forall i :: 0 <= i < |docs| ==> idOf(docs[i]) != idOf(c)
    ensures IndexOfId(docs + [c], idOf, idOf(c)) == Some(|docs|)
  {
    if docs != [] {
      assert (docs + [c])[1..] == docs[1..] + [c];
      IndexOfAppended(docs[1..], idOf, c);
    }
  }

  class ChannelCollection {
    var docs: seq<Channel>

    constructor (initial: seq<Channel>)
      ensures docs == initial
    {
      docs := initial;
    }

    predicate Fresh(id: Id)
      reads this
    {
      forall i :: 0 <= i < |docs| ==> docs[i].id != id
    }

    /** `Channel.findById(id)`. */
    function FindById(id: Id): (r: Option<Channel>)
      reads this
      ensures r.Some? ==> r.value in docs && r.value.id == id
      ensures r.None? ==> Fresh(id)
    {
      match ChannelIndex(docs, id)
      case None => None
      case Some(i) => Some(docs[i])
    }

    /** `new Channel(data).save()`. */
    method Save(data: ChannelData, newId: Id, failure: Option<Js.Error>) returns (r: Result<Channel, Js.Error>)
      requires Fresh(newId)
      modifies this
      ensures failure.Some? ==> r == Err(failure.value) && docs == old(docs)
      ensures failure.None? ==> r == Ok(Channel(newId, data.name, data.status)) && docs == old(docs) + [r.value]
    {
      if failure.Some? {
        return Err(failure.value);
      }
      var doc := Channel(newId, data.name, data.status);
      docs := docs + [doc];
      r := Ok(doc);
    }

    /** `Channel.findByIdAndUpdate(id, patch, { new: true })`: the document after the update, or null. */
    method FindByIdAndUpdate(id: Id, patch: ChannelPatch, failure: Option<Js.Error>) returns (r: Result<Option<Channel>, Js.Error>)
      modifies this
      ensures failure.Some? ==> r == Err(failure.value) && docs == old(docs)
      ensures failure.None? && ChannelIndex(old(docs), id).None? ==> r == Ok(None) && docs == old(docs)
      ensures failure.None? && ChannelIndex(old(docs), id).Some? ==>
        var i := ChannelIndex(old(docs), id).value;
        r == Ok(Some(PatchChannel(old(docs)[i], patch))) && docs == old(docs)[i := r.value.value]
    {
      if failure.Some? {
        return Err(failure.value);
      }
      match ChannelIndex(docs, id)
      case None =>
        r := Ok(None);
      case Some(i) =>
        var updated := PatchChannel(docs[i], patch);
        docs := docs[i := updated];
        r := Ok(Some(updated));
    }

    /** `Channel.findByIdAndDelete(id)`: the removed document, or null. */
    method FindByIdAndDelete(id: Id, failure: Option<Js.Error>) returns (r: Result<Option<Channel>, Js.Error>)
      modifies this
      ensures failure.Some? ==> r == Err(failure.value) && docs == old(docs)
      ensures failure.None? && ChannelIndex(old(docs), id).None? ==> r == Ok(None) && docs == old(docs)
      ensures failure.None? && ChannelIndex(old(docs), id).Some? ==>
        var i := ChannelIndex(old(docs), id).value;
        r == Ok(Some(old(docs)[i])) && docs == old(docs)[..i] + old(docs)[i + 1..]
    {
      if failure.Some? {
        return Err(failure.value);
      }
      match ChannelIndex(docs, id)
      case None =>
        r := Ok(None);
      case Some(i) =>
        r := Ok(Some(docs[i]));
        docs := docs[..i] + docs[i + 1..];
    }
  }

  class CampaignCollection {
    var docs: seq<Campaign>

    constructor (initial: seq<Campaign>)
      ensures docs == initial
    {
      docs := initial;
    }

    predicate Fresh(id: Id)
      reads this
    {
      forall i :: 0 <= i < |docs| ==> docs[i].id != id
    }

    /** `Campaign.findById(id)`. */
    function FindById(id: Id): (r: Option<Campaign>)
      reads this
      ensures r.Some? ==> r.value in docs && r.value.id == id
      ensures r.None? ==> Fresh(id)
    {
      match CampaignIndex(docs, id)
      case None => None
      case Some(i) => Some(docs[i])
    }

    /** `new Campaign(data).save()`. */
    method Save(data: CampaignData, newId: Id, failure: Option<Js.Error>) returns (r: Result<Campaign, Js.Error>)
      requires Fresh(newId)
      modifies this
      ensures failure.Some? ==> r == Err(failure.value) && docs == old(docs)
      ensures failure.None? ==>
        r == Ok(Campaign(newId, data.name, data.channel, data.startDate, data.endDate, data.budget))
        && docs == old(docs) + [r.value]
    {
      if failure.Some? {
        return Err(failure.value);
      }
      var doc := Campaign(newId, data.name, data.channel, data.startDate, data.endDate, data.budget);
      docs := docs + [doc];
      r := Ok(doc);
    }

    /** `Campaign.findByIdAndUpdate(id, patch, { new: true, runValidators: true })`. */
    method FindByIdAndUpdate(id: Id, patch: CampaignPatch, failure: Option<Js.Error>) returns (r: Result<Option<Campaign>, Js.Error>)
      modifies this
      ensures failure.Some? ==> r == Err(failure.value) && docs == old(docs)
      ensures failure.None? && CampaignIndex(old(docs), id).None? ==> r == Ok(None) && docs == old(docs)
      ensures failure.None? && CampaignIndex(old(docs), id).Some? ==>
        var i := CampaignIndex(old(docs), id).value;
        r == Ok(Some(PatchCampaign(old(docs)[i], patch))) && docs == old(docs)[i := r.value.value]
    {
      if failure.Some? {
        return Err(failure.value);
      }
      match CampaignIndex(docs, id)
      case None =>
        r := Ok(None);
      case Some(i) =>
        var updated := PatchCampaign(docs[i], patch);
        docs := docs[i := updated];
        r := Ok(Some(updated));
    }

    /** `Campaign.findByIdAndDelete(id)`. */
    method FindByIdAndDelete(id: Id, failure: Option<Js.Error>) returns (r: Result<Option<Campaign>, Js.Error>)
      modifies this
      ensures failure.Some? ==> r == Err(failure.value) && docs == old(docs)
      ensures failure.None? && CampaignIndex(old(docs), id).None? ==> r == Ok(None) && docs == old(docs)
      ensures failure.None? && CampaignIndex(old(docs), id).Some? ==>
        var i := CampaignIndex(old(docs), id).value;
        r == Ok(Some(old(docs)[i])) && docs == old(docs)[..i] + old(docs)[i + 1..]
    {
      if failure.Some? {
        return Err(failure.value);
      }
      match CampaignIndex(docs, id)
      case None =>
        r := Ok(None);
      case Some(i) =>
        r := Ok(Some(docs[i]));
        docs := docs[..i] + docs[i + 1..];
    }
  }

  /** The position of the first user with this email: `User.findOne({ email })`. */
  function UserIndex(docs: seq<User>, email: Js.Value): (r: Option<nat>)
    ensures r.Some? ==> r.value < |docs| && docs[r.value].email == email
    ensures r.Some? ==> forall j :: 0 <= j < r.value ==> docs[j].email != email
    ensures r.None? ==> forall i :: 0 <= i < |docs| ==> docs[i].email != email
  {
    if docs == [] then None
    else if docs[0].email == email then Some(0)
    else match UserIndex(docs[1..], email)
      case None => None
      case Some(i) => Some(i + 1)
  }

  /** A user appended after every user with another email is the first match for its email. */
  lemma {:induction false} UserIndexOfAppended(docs: seq<User>, u: User)
    requires forall i :: 0 <= i < |docs| ==> docs[i].email != u.email
    ensures UserIndex(docs + [u], u.email) == Some(|docs|)
  {
    if docs != [] {
      assert (docs + [u])[1..] == docs[1..] + [u];
      UserIndexOfAppended(docs[1..], u);
    }
  }

  class UserCollection {
    var docs: seq<User>

    constructor (initial: seq<User>)
      ensures docs == initial
    {
      docs := initial;
    }

    predicate Fresh(id: Id)
      reads this
    {
      forall i :: 0 <= i < |docs| ==> docs[i].id != id
    }

    /** `new User({ email, password }).save()`. */
    method Save(email: Js.Value, password: string, newId: Id, failure: Option<Js.Error>) returns (r: Result<User, Js.Error>)
      requires Fresh(newId)
      modifies this
      ensures failure.Some? ==> r == Err(failure.value) && docs == old(docs)
      ensures failure.None? ==> r == Ok(User(newId, email, password)) && docs == old(docs) + [r.value]
    {
      if failure.Some? {
        return Err(failure.value);
      }
      var doc := User(newId, email, password);
      docs := docs + [doc];
      r := Ok(doc);
    }
  }
}
