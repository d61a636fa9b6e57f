/**
 * The provider document of the provider service: weekly availability rules, reviews and
 * the provider itself, with the schema's required fields, the rating range and defaults.
 *
 * A request body may leave any field out. A required text field is refused when it is
 * missing or empty, so the model reads a missing text as "" and a missing rating as 0,
 * both of which the validity predicates refuse.
 */
module ProviderModel {
  import opened Wrappers

  datatype AvailabilityRule = AvailabilityRule(day: string, startTime: string, endTime: string)

  /** A review; `createdAt` is a timestamp (milliseconds), by default the moment of creation. */
  datatype Review = Review(userId: string, rating: int, comment: Option<string>, createdAt: int)

  datatype Provider = Provider(
    id: nat,
    name: string,
    email: string,
    phone: string,
    serviceType: string,
    address: Option<string>,
    isVerified: bool,
    availability: seq<AvailabilityRule>,
    reviews: seq<Review>)

  /** A rule, review or provider as a request body gives it. */
  datatype RuleInput = RuleInput(day: Option<string>, startTime: Option<string>, endTime: Option<string>)
  datatype ReviewInput = ReviewInput(userId: Option<string>, rating: Option<int>, comment: Option<string>,
                                     createdAt: Option<int>)
  datatype ProviderInput = ProviderInput(
    name: Option<string>,
    email: Option<string>,
    phone: Option<string>,
    serviceType: Option<string>,
    address: Option<string>,
    isVerified: Option<bool>,
    availability: seq<RuleInput>,
    reviews: seq<ReviewInput>)

  predicate ValidRule(a: AvailabilityRule)
  {
    a.day != "" && a.startTime != "" && a.endTime != ""
  }

  predicate ValidReview(r: Review)
  {
    r.userId != "" && 1 <= r.rating <= 5
  }

  /** The schema constraints: required fields, and every rule and review valid. */
  predicate ValidProvider(p: Provider)
  {
    && p.name != "" && p.email != "" && p.phone != "" && p.serviceType != ""
    && (forall i :: 0 <= i < |p.availability| ==> ValidRule(p.availability[i]))
    && (forall i :: 0 <= i < |p.reviews| ==> ValidReview(p.reviews[i]))
  }

  /** A text field as stored: the given text, or "" when it is missing. */
  function Text(s: Option<string>): (t: string)
    ensures t == "" <==> !Truthy(s)
    ensures s.Some? ==> t == s.value
  {
    if s.Some? then s.value else ""
  }

  function CastRule(r: RuleInput): (a: AvailabilityRule)
    ensures ValidRule(a) <==> Truthy(r.day) && Truthy(r.startTime) && Truthy(r.endTime)
    ensures a.day == Text(r.day) && a.startTime == Text(r.startTime) && a.endTime == Text(r.endTime)
  {
    AvailabilityRule(Text(r.day), Text(r.startTime), Text(r.endTime))
  }

  /** A review from its input: `createdAt` defaults to `now`, `comment` stays optional. */
  function CastReview(r: ReviewInput, now: int): (v: Review)
    ensures ValidReview(v) <==> Truthy(r.userId) && r.rating.Some? && 1 <= r.rating.value <= 5
    ensures v.userId == Text(r.userId)
    ensures r.rating.Some? ==> v.rating == r.rating.value
    ensures r.createdAt.Some? ==> v.createdAt == r.createdAt.value
    ensures r.createdAt.None? ==> v.createdAt == now
    ensures v.comment == r.comment
  {
    Review(Text(r.userId), if r.rating.Some? then r.rating.value else 0, r.comment,
           if r.createdAt.Some? then r.createdAt.value else now)
  }

  /** A provider from its input: `isVerified` defaults to false, `address` stays optional. */
  function Cast(id: nat, p: ProviderInput, now: int): (v: Provider)
    ensures v.id == id && v.address == p.address
    ensures v.name == Text(p.name) && v.email == Text(p.email)
    ensures v.phone == Text(p.phone) && v.serviceType == Text(p.serviceType)
    ensures v.isVerified <==> p.isVerified == Some(true)
    ensures |v.availability| == |p.availability| && |v.reviews| == |p.reviews|
    ensures forall i :: 0 <= i < |p.availability| ==> v.availability[i] == CastRule(p.availability[i])
    ensures forall i :: 0 <= i < |p.reviews| ==> v.reviews[i] == CastReview(p.reviews[i], now)
  {
    Provider(id, Text(p.name), Text(p.email), Text(p.phone), Text(p.serviceType), p.address,
             if p.isVerified.Some? then p.isVerified.value else false,
             seq(|p.availability|, i requires 0 <= i < |p.availability| => CastRule(p.availability[i])),
             seq(|p.reviews|, i requires 0 <= i < |p.reviews| => CastReview(p.reviews[i], now)))
  }

  /** What the schema accepts, stated on the request body itself. */
  predicate Acceptable(p: ProviderInput)
  {
    && Truthy(p.name) && Truthy(p.email) && Truthy(p.phone) && Truthy(p.serviceType)
    && (forall i :: 0 <= i < |p.availability| ==>
          Truthy(p.availability[i].day) && Truthy(p.availability[i].startTime) && Truthy(p.availability[i].endTime))
    && (forall i :: 0 <= i < |p.reviews| ==>
          Truthy(p.reviews[i].userId) && p.reviews[i].rating.Some? && 1 <= p.reviews[i].rating.value <= 5)
  }

  /** Creating a document: refused when validation fails, else the valid, defaulted record. */
  function Create(id: nat, p: ProviderInput, now: int): (r: Option<Provider>)
    ensures r.Some? <==> Acceptable(p)
    ensures r.Some? ==> ValidProvider(r.value) && r.value == Cast(id, p, now)
    ensures r.Some? && p.isVerified.None? ==> !r.value.isVerified
  {
    var v := Cast(id, p, now);
    if ValidProvider(v) then Some(v) else None
  }
}
