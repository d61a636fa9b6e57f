/**
 * The request handlers of the provider service over the provider collection: create, list,
 * get by id, find by email, replace availability, verify and add a review.
 *
 * Whether the database answers is a parameter `dbUp`; `now` is the clock reading a
 * defaulted timestamp takes. Document ids are natural numbers handed out in order.
 */
module ProviderStore {
  import opened Wrappers
  import opened ProviderModel

  /** A response body: one provider, a collection of them, a message, or an error's text. */
  datatype Body = One(provider: Provider) | Many(all: set<Provider>) | Message(text: string) | ErrorText

  datatype Reply = Reply(status: int, body: Body)

  /** The provider collection: documents keyed by id, and the id the next insert receives. */
  datatype Directory = Directory(docs: map<nat, Provider>, nextId: nat)

  predicate WellFormed(d: Directory)
  {
    forall k :: k in d.docs ==> k < d.nextId && d.docs[k].id == k
  }

  const NotFound := Reply(404, Message("Provider not found"))

  /** `createProvider`: 201 with the new, valid document; any failure, validation or database, is 400. */
  function CreateProvider(d: Directory, input: ProviderInput, now: int, dbUp: bool): (r: (Reply, Directory))
    requires WellFormed(d)
    ensures WellFormed(r.1)
    ensures r.0.status == 201 <==> dbUp && Acceptable(input)
    ensures r.0.status != 201 ==> r.0 == Reply(400, ErrorText) && r.1 == d
    ensures r.0.status == 201 ==>
              && d.nextId !in d.docs
              && r.0.body.One?
              && r.1.docs == d.docs[d.nextId := r.0.body.provider]
              && ValidProvider(r.0.body.provider)
              && Create(d.nextId, input, now) == Some(r.0.body.provider)
  {
    if !dbUp then (Reply(400, ErrorText), d)
    else
      match Create(d.nextId, input, now)
      case None => (Reply(400, ErrorText), d)
      case Some(p) => (Reply(201, One(p)), Directory(d.docs[p.id := p], d.nextId + 1))
  }

  /**
   * A created provider can be fetched back by its id, holding the request body's name, email,
   * phone, service type and address, and the body's rules in order.
   */
  lemma CreatedProviderIsFetched(d: Directory, input: ProviderInput, now: int)
    requires WellFormed(d)
    requires CreateProvider(d, input, now, true).0.status == 201
    ensures var after := CreateProvider(d, input, now, true).1;
            var r := GetProviderById(after, d.nextId, true);
            && r.status == 200 && r.body.One?
            && Some(r.body.provider.name) == input.name
            && Some(r.body.provider.email) == input.email
            && Some(r.body.provider.phone) == input.phone
            && Some(r.body.provider.serviceType) == input.serviceType
            && r.body.provider.address == input.address
            && |r.body.provider.availability| == |input.availability|
            && forall i :: 0 <= i < |input.availability| ==>
                 Some(r.body.provider.availability[i].day) == input.availability[i].day
  {
    var (reply, after) := CreateProvider(d, input, now, true);
    var v := Cast(d.nextId, input, now);
    assert reply.body.provider == v;
    assert after.docs[d.nextId] == v;
    forall i | 0 <= i < |input.availability|
      ensures Some(v.availability[i].day) == input.availability[i].day
    {
      assert Truthy(input.availability[i].day);
    }
  }

  /** `getAllProviders`: every stored provider (200), or 500. */
  function GetAllProviders(d: Directory, dbUp: bool): (r: Reply)
    ensures dbUp ==> r.status == 200 && r.body.Many?
                     && forall p :: p in r.body.all <==> exists k :: k in d.docs && d.docs[k] == p
    ensures !dbUp ==> r == Reply(500, ErrorText)
  {
    if dbUp then Reply(200, Many(d.docs.Values)) else Reply(500, ErrorText)
  }

  /** `getProviderById`: 404 "Provider not found" for an absent id, otherwise 200 with the document. */
  function GetProviderById(d: Directory, id: nat, dbUp: bool): (r: Reply)
    ensures !dbUp ==> r == Reply(500, ErrorText)
    ensures dbUp && id !in d.docs ==> r == NotFound
    ensures dbUp && id in d.docs ==> r == Reply(200, One(d.docs[id]))
  {
    if !dbUp then Reply(500, ErrorText)
    else if id !in d.docs then NotFound
    else Reply(200, One(d.docs[id]))
  }

  /**
   * `getProviderByEmail`: 200 with every provider whose email is the query, possibly none.
   * A find returns a list, never nothing, so the handler's 404 branch is never taken.
   */
  function GetProviderByEmail(d: Directory, email: string, dbUp: bool): (r: Reply)
    ensures r.status != 404
    ensures !dbUp ==> r == Reply(500, ErrorText)
    ensures dbUp ==> r.status == 200 && r.body.Many?
                     && forall p :: p in r.body.all <==> p in d.docs.Values && p.email == email
  {
    if !dbUp then Reply(500, ErrorText)
    else Reply(200, Many(set p | p in d.docs.Values && p.email == email))
  }

  /**
   * `updateAvailability`: the whole list of rules is replaced and nothing else changes.
   * The update does not run the schema validators, so the rules are stored as given.
   */
  function UpdateAvailability(d: Directory, id: nat, rules: seq<AvailabilityRule>, dbUp: bool)
    : (r: (Reply, Directory))
    requires WellFormed(d)
    ensures WellFormed(r.1)
    ensures r.0.status != 200 ==> r.1 == d
    ensures !dbUp ==> r.0 == Reply(500, ErrorText)
    ensures dbUp && id !in d.docs ==> r.0 == NotFound
    ensures r.0.status == 200 <==> dbUp && id in d.docs
    ensures r.1.docs.Keys == d.docs.Keys && r.1.nextId == d.nextId
    ensures forall k :: k in d.docs && k != id ==> r.1.docs[k] == d.docs[k]
    ensures r.0.status == 200 ==>
              && r.0.body == One(r.1.docs[id])
              && r.1.docs[id].availability == rules
              && r.1.docs[id] == d.docs[id].(availability := rules)
  {
    if !dbUp then (Reply(500, ErrorText), d)
    else if id !in d.docs then (NotFound, d)
    else
      var p := d.docs[id].(availability := rules);
      (Reply(200, One(p)), d.(docs := d.docs[id := p]))
  }

  /** `verifyProvider`: `isVerified` becomes true and nothing else changes. */
  function VerifyProvider(d: Directory, id: nat, dbUp: bool): (r: (Reply, Directory))
    requires WellFormed(d)
    ensures WellFormed(r.1)
    ensures r.0.status != 200 ==> r.1 == d
    ensures !dbUp ==> r.0 == Reply(500, ErrorText)
    ensures dbUp && id !in d.docs ==> r.0 == NotFound
    ensures r.0.status == 200 <==> dbUp && id in d.docs
    ensures r.1.docs.Keys == d.docs.Keys && r.1.nextId == d.nextId
    ensures forall k :: k in d.docs && k != id ==> r.1.docs[k] == d.docs[k]
    ensures r.0.status == 200 ==>
              && r.0.body == One(r.1.docs[id])
              && r.1.docs[id].isVerified
              && r.1.docs[id] == d.docs[id].(isVerified := true)
  {
    if !dbUp then (Reply(500, ErrorText), d)
    else if id !in d.docs then (NotFound, d)
    else
      var p := d.docs[id].(isVerified := true);
      (Reply(200, One(p)), d.(docs := d.docs[id := p]))
  }

  /**
   * `addReview`: the review is appended after the existing ones (201). The save runs the
   * validators, so a review without user or with a rating outside 1..5 is a 500 with the
   * document unchanged; an absent id is 404.
   */
  function AddReview(d: Directory, id: nat, input: ReviewInput, now: int, dbUp: bool): (r: (Reply, Directory))
    requires WellFormed(d)
    ensures WellFormed(r.1)
    ensures r.0.status != 201 ==> r.1 == d
    ensures !dbUp ==> r.0 == Reply(500, ErrorText)
    ensures dbUp && id !in d.docs ==> r.0 == NotFound
    ensures dbUp && id in d.docs && r.0.status != 201 ==> r.0 == Reply(500, ErrorText)
    ensures r.0.status == 201 <==> dbUp && id in d.docs && ValidProvider(d.docs[id].(reviews := d.docs[id].reviews + [CastReview(input, now)]))
    ensures r.1.docs.Keys == d.docs.Keys && r.1.nextId == d.nextId
    ensures forall k :: k in d.docs && k != id ==> r.1.docs[k] == d.docs[k]
    ensures r.0.status == 201 ==>
              && r.0.body == One(r.1.docs[id])
              && |r.1.docs[id].reviews| == |d.docs[id].reviews| + 1
              && r.1.docs[id].reviews[..|d.docs[id].reviews|] == d.docs[id].reviews
              && r.1.docs[id].reviews[|d.docs[id].reviews|] == CastReview(input, now)
              && r.1.docs[id] == d.docs[id].(reviews := r.1.docs[id].reviews)
  {
    if !dbUp then (Reply(500, ErrorText), d)
    else if id !in d.docs then (NotFound, d)
    else
      var p := d.docs[id].(reviews := d.docs[id].reviews + [CastReview(input, now)]);
      if ValidProvider(p) then (Reply(201, One(p)), d.(docs := d.docs[id := p]))
      else (Reply(500, ErrorText), d)
  }

  /** On a valid document, adding a review succeeds exactly when the review itself is valid. */
  lemma AddReviewToValid(d: Directory, id: nat, input: ReviewInput, now: int)
    requires WellFormed(d) && id in d.docs && ValidProvider(d.docs[id])
    ensures var r := AddReview(d, id, input, now, true);
            (r.0.status == 201 <==> ValidReview(CastReview(input, now)))
            && ValidProvider(r.1.docs[id])
  {
    var p := d.docs[id].(reviews := d.docs[id].reviews + [CastReview(input, now)]);
    if ValidReview(CastReview(input, now)) {
      assert forall i :: 0 <= i < |p.reviews| ==> ValidReview(p.reviews[i]) by {
        forall i | 0 <= i < |p.reviews|
          ensures ValidReview(p.reviews[i])
        {
          if i < |d.docs[id].reviews| { assert p.reviews[i] == d.docs[id].reviews[i]; }
        }
      }
    } else {
      assert p.reviews[|p.reviews| - 1] == CastReview(input, now);
    }
  }

  /** An added review can be fetched back: the last review holds the request's user, rating and comment. */
  lemma AddedReviewIsFetched(d: Directory, id: nat, input: ReviewInput, now: int)
    requires WellFormed(d)
    requires AddReview(d, id, input, now, true).0.status == 201
    ensures var after := AddReview(d, id, input, now, true).1;
            var r := GetProviderById(after, id, true);
            && r.status == 200 && r.body.One? && |r.body.provider.reviews| > 0
            && var last := r.body.provider.reviews[|r.body.provider.reviews| - 1];
               && Some(last.userId) == input.userId
               && Some(last.rating) == input.rating
               && last.comment == input.comment
  {
    var after := AddReview(d, id, input, now, true).1;
    var v := CastReview(input, now);
    assert after.docs[id].reviews[|after.docs[id].reviews| - 1] == v;
    assert ValidReview(v) by {
      assert ValidProvider(after.docs[id]);
    }
  }

  /** Verifying is idempotent. */
  lemma VerifyIdempotent(d: Directory, id: nat, dbUp: bool)
    requires WellFormed(d)
    ensures var once := VerifyProvider(d, id, dbUp);
            VerifyProvider(once.1, id, dbUp) == once
  {
    var once := VerifyProvider(d, id, dbUp);
    if dbUp && id in d.docs {
      assert once.1.docs[id := once.1.docs[id].(isVerified := true)] == once.1.docs;
    }
  }

  /** Emails are not unique: the same body created twice gives two documents found by that email. */
  lemma SharedEmail(d: Directory, input: ProviderInput, now: int)
    requires WellFormed(d) && Acceptable(input)
    ensures var first := CreateProvider(d, input, now, true);
            var second := CreateProvider(first.1, input, now, true);
            && first.0.status == 201 && second.0.status == 201
            && first.0.body.provider != second.0.body.provider
            && var found := GetProviderByEmail(second.1, input.email.value, true).body.all;
               first.0.body.provider in found && second.0.body.provider in found
  {
    var first := CreateProvider(d, input, now, true);
    var second := CreateProvider(first.1, input, now, true);
    assert first.0.body.provider.id == d.nextId;
    assert second.0.body.provider.id == d.nextId + 1;
    assert second.1.docs[d.nextId] == first.0.body.provider;
    assert second.1.docs[d.nextId + 1] == second.0.body.provider;
  }

  /**
   * The provider collection as the handlers change it. Updates overwrite a document's
   * fields in place; a review is pushed onto the stored list and the document saved.
   */
  class ProviderCollection {
    var docs: map<nat, Provider>
    var nextId: nat

    predicate Valid()
      reads this
    {
      WellFormed(Directory(docs, nextId))
    }

    function State(): (d: Directory)
      reads this
      ensures d.docs == docs && d.nextId == nextId
    {
      Directory(docs, nextId)
    }

    constructor ()
      ensures Valid() && docs == map[] && nextId == 0
    {
      docs := map[];
      nextId := 0;
    }

    method Create(input: ProviderInput, now: int, dbUp: bool) returns (reply: Reply)
      requires Valid()
      modifies this
      ensures Valid()
      ensures (reply, State()) == CreateProvider(old(State()), input, now, dbUp)
    {
      if !dbUp {
        return Reply(400, ErrorText);
      }
      var created := ProviderModel.Create(nextId, input, now);
      if created.None? {
        return Reply(400, ErrorText);
      }
      docs := docs[nextId := created.value];
      nextId := nextId + 1;
      reply := Reply(201, One(created.value));
    }

    method GetAll(dbUp: bool) returns (reply: Reply)
      requires Valid()
      ensures reply == GetAllProviders(State(), dbUp)
    {
      if !dbUp {
        return Reply(500, ErrorText);
      }
      reply := Reply(200, Many(docs.Values));
    }

    method GetById(id: nat, dbUp: bool) returns (reply: Reply)
      requires Valid()
      ensures reply == GetProviderById(State(), id, dbUp)
    {
      if !dbUp {
        return Reply(500, ErrorText);
      }
      if id !in docs {
        return NotFound;
      }
      reply := Reply(200, One(docs[id]));
    }

    method GetByEmail(email: string, dbUp: bool) returns (reply: Reply)
      requires Valid()
      ensures reply == GetProviderByEmail(State(), email, dbUp)
    {
      if !dbUp {
        return Reply(500, ErrorText);
      }
      var found := set p | p in docs.Values && p.email == email;
      reply := Reply(200, Many(found));
    }

    method SetAvailability(id: nat, rules: seq<AvailabilityRule>, dbUp: bool) returns (reply: Reply)
      requires Valid()
      modifies this
      ensures Valid()
      ensures (reply, State()) == UpdateAvailability(old(State()), id, rules, dbUp)
    {
      if !dbUp {
        return Reply(500, ErrorText);
      }
      if id !in docs {
        return NotFound;
      }
      docs := docs[id := docs[id].(availability := rules)];
      reply := Reply(200, One(docs[id]));
    }

    method Verify(id: nat, dbUp: bool) returns (reply: Reply)
      requires Valid()
      modifies this
      ensures Valid()
      ensures (reply, State()) == VerifyProvider(old(State()), id, dbUp)
    {
      if !dbUp {
        return Reply(500, ErrorText);
      }
      if id !in docs {
        return NotFound;
      }
      docs := docs[id := docs[id].(isVerified := true)];
      reply := Reply(200, One(docs[id]));
    }

    method PushReview(id: nat, input: ReviewInput, now: int, dbUp: bool) returns (reply: Reply)
      requires Valid()
      modifies this
      ensures Valid()
      ensures (reply, State()) == AddReview(old(State()), id, input, now, dbUp)
    {
      if !dbUp {
        return Reply(500, ErrorText);
      }
      if id !in docs {
        return NotFound;
      }
      var provider := docs[id];
      provider := provider.(reviews := provider.reviews + [CastReview(input, now)]);
      if !ValidProvider(provider) {
        return Reply(500, ErrorText);
      }
      docs := docs[id := provider];
      reply := Reply(201, One(provider));
    }
  }
}
