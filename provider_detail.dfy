/**
 * The provider detail page: the rules of the selected weekday, the average rating, the
 * weekday first shown, the local update after a review is submitted, and where the booking
 * button leads.
 */
module ProviderDetail {
  import opened Wrappers
  import opened FrontTypes
  import opened Seqs
  import ProvidersPage

  /** The rules shown for the selected weekday: none without a provider, else that day's rules in order. */
  function DayAvailability(provider: Option<Provider>, activeDay: string): (r: seq<Availability>)
    ensures provider.None? ==> r == []
    ensures provider.Some? ==>
              && SubsequenceOf(r, provider.value.availability)
              && forall a :: a in r <==> a in provider.value.availability && a.day == activeDay
  {
    if provider.None? then []
    else Filter(provider.value.availability, (slot: Availability) => slot.day == activeDay)
  }

  function Ratings(reviews: seq<Review>): (r: seq<int>)
    ensures |r| == |reviews| && forall i :: 0 <= i < |r| ==> r[i] == reviews[i].rating
  {
    seq(|reviews|, i requires 0 <= i < |reviews| => reviews[i].rating)
  }

  /** The average rating: 0 without a provider or without reviews, otherwise total over count. */
  function AverageRating(provider: Option<Provider>): (avg: real)
    ensures provider.None? || |provider.value.reviews| == 0 ==> avg == 0.0
    ensures provider.Some? && |provider.value.reviews| > 0 ==>
              avg * (|provider.value.reviews| as real) == ProvidersPage.Sum(Ratings(provider.value.reviews)) as real
  {
    if provider.None? || |provider.value.reviews| == 0 then 0.0
    else ProvidersPage.AverageRating(Ratings(provider.value.reviews))
  }

  /** The weekday selected once the provider is loaded: its first rule's day, or still "" with no rules. */
  function InitialActiveDay(p: Provider): (day: string)
    ensures |p.availability| > 0 ==> day == p.availability[0].day
    ensures |p.availability| == 0 ==> day == ""
  {
    if |p.availability| > 0 then p.availability[0].day else ""
  }

  /** The weekday first shown always has at least one rule, unless there are none. */
  lemma InitialDayHasRules(p: Provider)
    requires |p.availability| > 0
    ensures |DayAvailability(Some(p), InitialActiveDay(p))| > 0
  {
    assert p.availability[0] in DayAvailability(Some(p), InitialActiveDay(p));
  }

  /** The review form. */
  datatype ReviewForm = ReviewForm(rating: int, comment: string)

  /** What the page shows: the provider, whether the review dialog is open, and the form. */
  datatype View = View(provider: Option<Provider>, reviewOpen: bool, form: ReviewForm)

  /**
   * `handleReviewSubmit`: without a route id or a signed-in user nothing happens, and a
   * failed call changes nothing either. After a successful call the new review is put first,
   * before the previous ones, the dialog closes and the form resets to 5 stars and no comment.
   */
  function SubmitReview(v: View, routeId: Option<string>, authenticated: bool, user: User,
                        callSucceeded: bool, now: string): (r: View)
    ensures !Truthy(routeId) || !authenticated || !callSucceeded ==> r == v
    ensures Truthy(routeId) && authenticated && callSucceeded ==>
              && !r.reviewOpen
              && r.form == ReviewForm(5, "")
              && (v.provider.None? ==> r.provider.None?)
              && (v.provider.Some? ==>
                    && r.provider.Some?
                    && var before := v.provider.value.reviews;
                       var after := r.provider.value.reviews;
                       && |after| == |before| + 1
                       && after[0].rating == v.form.rating && after[0].comment == v.form.comment
                       && after[0].userId == (if Truthy(user.id) then user.id.value else "user1")
                       && after[0].createdAt == now
                       && after[1..] == before
                       && r.provider.value == v.provider.value.(reviews := after))
  {
    if !Truthy(routeId) || !authenticated || !callSucceeded then v
    else
      var review := Review(if Truthy(user.id) then user.id.value else "user1", v.form.rating, v.form.comment, now);
      var provider := if v.provider.Some? then Some(v.provider.value.(reviews := [review] + v.provider.value.reviews))
                      else None;
      View(provider, false, ReviewForm(5, ""))
  }

  /** A page navigation: the target path and the `from` path handed to the login page. */
  datatype Navigation = Navigation(path: string, from: Option<string>)

  /** `handleBooking`: a signed-out visitor goes to the login page, remembering this page; anyone else to the booking page. */
  function HandleBooking(id: string, authenticated: bool): (n: Navigation)
    ensures !authenticated ==> n.path == "/login" && n.from == Some("/providers/" + id)
    ensures authenticated ==> n.path == "/booking/" + id && n.from.None?
  {
    if !authenticated then Navigation("/login", Some("/providers/" + id))
    else Navigation("/booking/" + id, None)
  }
}
