/**
 * The route table of the provider service and its inline availability handler.
 *
 * Routes are tried in the order they were registered and the first whose verb and pattern
 * fit the request path handles it; a `:param` segment fits any non-empty path segment.
 * The router is created with its default options: fixed words match whatever their letter
 * case, and one trailing slash is ignored. A path is given as its segments, so a trailing
 * slash shows as a final empty segment.
 */
module ProviderRoutes {
  import opened Wrappers
  import opened Ascii

  /** The JSON body of the availability handler, with its HTTP status. */
  datatype AvailabilityReply = AvailabilityReply(status: int, available: bool, message: Option<string>)

  /**
   * `GET /check-availability`: yes (200) whenever provider id, date and time are all
   * present and non-empty, 400 "Invalid query" otherwise. Nothing else is consulted.
   */
  function CheckAvailability(providerId: Option<string>, date: Option<string>, time: Option<string>)
    : (r: AvailabilityReply)
    ensures r.available <==> Truthy(providerId) && Truthy(date) && Truthy(time)
    ensures r.available ==> r.status == 200 && r.message.None?
    ensures !r.available ==> r.status == 400 && r.message == Some("Invalid query")
  {
    if Truthy(providerId) && Truthy(date) && Truthy(time) then
      AvailabilityReply(200, true, None)
    else
      AvailabilityReply(400, false, Some("Invalid query"))
  }

  /** The answer depends only on which of the three values are present and non-empty. */
  lemma AvailabilityIgnoresValues(p1: Option<string>, d1: Option<string>, t1: Option<string>,
                                  p2: Option<string>, d2: Option<string>, t2: Option<string>)
    requires Truthy(p1) == Truthy(p2) && Truthy(d1) == Truthy(d2) && Truthy(t1) == Truthy(t2)
    ensures CheckAvailability(p1, d1, t1) == CheckAvailability(p2, d2, t2)
  {
  }

  datatype Verb = Get | Post | Put

  /** A pattern segment: a fixed word, or a named parameter such as `:id`. */
  datatype Segment = Lit(word: string) | Param

  datatype Handler =
    | CreateProvider | GetAllProviders | GetProviderByEmail | CheckAvailabilityHandler
    | GetProviderById | UpdateAvailability | VerifyProvider | AddReview

  datatype Route = Route(verb: Verb, pattern: seq<Segment>, handler: Handler)

  /** The routes in registration order; the path is relative to the router's mount point. */
  const Routes: seq<Route> := [
    Route(Post, [], CreateProvider),
    Route(Get, [], GetAllProviders),
    Route(Get, [Lit("by-email")], GetProviderByEmail),
    Route(Get, [Lit("check-availability")], CheckAvailabilityHandler),
    Route(Get, [Param], GetProviderById),
    Route(Put, [Param, Lit("availability")], UpdateAvailability),
    Route(Put, [Param, Lit("verify")], VerifyProvider),
    Route(Post, [Param, Lit("reviews")], AddReview)
  ]

  /** Fixed words are written in lower case and compared with the lower-cased path segment. */
  predicate SegmentFits(s: Segment, word: string)
  {
    match s
    case Lit(w) => w == Lower(word)
    case Param => word != ""
  }

  /** The path without one trailing slash. */
  function Trimmed(path: seq<string>): (r: seq<string>)
    ensures path != [] && path[|path| - 1] == "" ==> r == path[..|path| - 1]
    ensures path == [] || path[|path| - 1] != "" ==> r == path
  {
    if path != [] && path[|path| - 1] == "" then path[..|path| - 1] else path
  }

  predicate Fits(r: Route, verb: Verb, path: seq<string>)
  {
    var p := Trimmed(path);
    && r.verb == verb
    && |r.pattern| == |p|
    && forall i :: 0 <= i < |p| ==> SegmentFits(r.pattern[i], p[i])
  }

  /** The handler of the first route, in order, that fits the request; None when none does. */
  function Dispatch(routes: seq<Route>, verb: Verb, path: seq<string>): (h: Option<Handler>)
    ensures h.None? <==> forall i :: 0 <= i < |routes| ==> !Fits(routes[i], verb, path)
    ensures h.Some? ==>
              exists i :: 0 <= i < |routes| && Fits(routes[i], verb, path) && routes[i].handler == h.value
                          && forall j :: 0 <= j < i ==> !Fits(routes[j], verb, path)
  {
    if routes == [] then None
    else if Fits(routes[0], verb, path) then Some(routes[0].handler)
    else
      var rest := Dispatch(routes[1..], verb, path);
      assert forall i :: 1 <= i < |routes| ==> routes[i] == routes[1..][i - 1];
      if rest.Some? then
        assert exists i :: 1 <= i < |routes| && Fits(routes[i], verb, path) && routes[i].handler == rest.value
                           && forall j :: 0 <= j < i ==> !Fits(routes[j], verb, path) by {
          var k :| 0 <= k < |routes[1..]| && Fits(routes[1..][k], verb, path) && routes[1..][k].handler == rest.value
                   && forall j :: 0 <= j < k ==> !Fits(routes[1..][j], verb, path);
          assert forall j :: 1 <= j < k + 1 ==> routes[j] == routes[1..][j - 1];
        }
        rest
      else
        rest
  }

  /** A route that fits, with no earlier route fitting, is the one that handles the request. */
  lemma {:induction false} FirstFitHandles(routes: seq<Route>, verb: Verb, path: seq<string>, i: nat)
    requires i < |routes| && Fits(routes[i], verb, path)
    requires forall j :: 0 <= j < i ==> !Fits(routes[j], verb, path)
    ensures Dispatch(routes, verb, path) == Some(routes[i].handler)
  {
    if i > 0 {
      assert !Fits(routes[0], verb, path);
      assert routes[1..][i - 1] == routes[i];
      forall j | 0 <= j < i - 1
        ensures !Fits(routes[1..][j], verb, path)
      {
        assert routes[1..][j] == routes[j + 1];
      }
      FirstFitHandles(routes[1..], verb, path, i - 1);
    }
  }

  /** The path of one segment, with or without a trailing slash. */
  function OneSegment(word: string, slash: bool): (path: seq<string>)
    ensures |path| == (if slash then 2 else 1) && path[0] == word
    ensures word != "" ==> Trimmed(path) == [word]
  {
    if slash then [word, ""] else [word]
  }

  /**
   * `GET /by-email` is registered before `/:id`, so "by-email", in any letter case and with
   * or without a trailing slash, is never read as an id.
   */
  lemma ByEmailIsStatic(word: string, slash: bool)
    requires Lower(word) == "by-email"
    ensures Dispatch(Routes, Get, OneSegment(word, slash)) == Some(GetProviderByEmail)
  {
    var path := OneSegment(word, slash);
    assert Trimmed(path) == [word];
    assert Fits(Routes[2], Get, path) by { assert Routes[2].pattern == [Lit("by-email")]; }
    FirstFitHandles(Routes, Get, path, 2);
  }

  /** `GET /check-availability` is registered before `/:id` as well. */
  lemma CheckAvailabilityIsStatic(word: string, slash: bool)
    requires Lower(word) == "check-availability"
    ensures Dispatch(Routes, Get, OneSegment(word, slash)) == Some(CheckAvailabilityHandler)
  {
    var path := OneSegment(word, slash);
    assert Trimmed(path) == [word];
    assert !Fits(Routes[2], Get, path) by {
      assert Routes[2].pattern[0] == Lit("by-email");
      assert "by-email"[0] != "check-availability"[0];
    }
    assert Fits(Routes[3], Get, path) by { assert Routes[3].pattern == [Lit("check-availability")]; }
    FirstFitHandles(Routes, Get, path, 3);
  }

  /** Every other non-empty single segment, with or without a trailing slash, reaches get-by-id. */
  lemma OtherSegmentIsAnId(word: string, slash: bool)
    requires word != "" && Lower(word) != "by-email" && Lower(word) != "check-availability"
    ensures Dispatch(Routes, Get, OneSegment(word, slash)) == Some(GetProviderById)
  {
    var path := OneSegment(word, slash);
    assert Trimmed(path) == [word];
    assert !Fits(Routes[0], Get, path) && !Fits(Routes[1], Get, path);
    assert !Fits(Routes[2], Get, path) by { assert Routes[2].pattern[0] == Lit("by-email"); }
    assert !Fits(Routes[3], Get, path) by { assert Routes[3].pattern[0] == Lit("check-availability"); }
    assert Fits(Routes[4], Get, path) by { assert Routes[4].pattern == [Param]; }
    FirstFitHandles(Routes, Get, path, 4);
  }

  /** `PUT /:id/availability` is reached whatever the letter case of "availability". */
  lemma AvailabilityRouteIgnoresCase(id: string, word: string)
    requires id != "" && Lower(word) == "availability"
    ensures Dispatch(Routes, Put, [id, word]) == Some(UpdateAvailability)
  {
    var path := [id, word];
    assert Trimmed(path) == path by { assert Lower(word) != ""; }
    assert Fits(Routes[5], Put, path) by { assert Routes[5].pattern == [Param, Lit("availability")]; }
    FirstFitHandles(Routes, Put, path, 5);
  }

  /** Had `/:id` been registered first, "by-email" would have been taken for a provider id. */
  lemma ByEmailNeedsItsPlace()
    ensures Dispatch([Route(Get, [Param], GetProviderById)] + Routes, Get, ["by-email"]) == Some(GetProviderById)
  {
    assert Trimmed(["by-email"]) == ["by-email"];
    FirstFitHandles([Route(Get, [Param], GetProviderById)] + Routes, Get, ["by-email"], 0);
  }
}
