/**
 * The provider directory page: average rating, the search and filter predicate, the
 * active-filter badge, resetting the filters, and the sample list shown when nothing was
 * fetched.
 */
module ProvidersPage {
  import opened Seqs
  import opened Ascii

  /** A provider as this page reads it: reviews are only their ratings. */
  datatype Listing = Listing(
    id: string,
    name: string,
    serviceType: string,
    address: string,
    phone: string,
    isVerified: bool,
    ratings: seq<int>)

  function Sum(ratings: seq<int>): int
  {
    if ratings == [] then 0 else Sum(ratings[..|ratings| - 1]) + ratings[|ratings| - 1]
  }

  /** The mean rating: 0 with no reviews, otherwise total over count (exact, not rounded). */
  function AverageRating(ratings: seq<int>): (avg: real)
    ensures |ratings| == 0 ==> avg == 0.0
    ensures |ratings| > 0 ==> avg * (|ratings| as real) == Sum(ratings) as real
  {
    if |ratings| == 0 then 0.0 else (Sum(ratings) as real) / (|ratings| as real)
  }

  /** Ratings of at least lo give a total of at least lo times their count. */
  lemma {:induction false} SumAtLeast(ratings: seq<int>, lo: int)
    requires forall i :: 0 <= i < |ratings| ==> lo <= ratings[i]
    ensures lo * |ratings| <= Sum(ratings)
  {
    if ratings != [] {
      SumAtLeast(ratings[..|ratings| - 1], lo);
    }
  }

  /** Multiplying both sides by a positive number keeps an inequality. */
  lemma ScaleInequality(a: real, b: real, c: real)
    requires c > 0.0
    ensures a >= b <==> a * c >= b * c
  {
    if a >= b {
      assert a * c - b * c == (a - b) * c;
    } else {
      assert b * c - a * c == (b - a) * c;
    }
  }

  /** The rating filter as integer arithmetic: the average reaches m exactly when the total reaches m times the count. */
  lemma AverageAtLeast(ratings: seq<int>, m: int)
    requires |ratings| > 0
    ensures AverageRating(ratings) >= m as real <==> Sum(ratings) >= m * |ratings|
  {
    var n := |ratings| as real;
    ScaleInequality(AverageRating(ratings), m as real, n);
    assert (m * |ratings|) as real == (m as real) * n;
  }

  /** `needle` occurs in `hay` starting at position i. */
  predicate OccursAt(hay: string, needle: string, i: int)
  {
    0 <= i <= |hay| - |needle| && hay[i..i + |needle|] == needle
  }

  /** `hay` contains `needle` as a contiguous piece. */
  predicate Includes(hay: string, needle: string)
  {
    exists i | 0 <= i <= |hay| - |needle| :: OccursAt(hay, needle, i)
  }

  /** The search box: empty, or a case-insensitive piece of the name or of the service type. */
  predicate MatchesSearch(p: Listing, term: string)
  {
    term == "" || Includes(Lower(p.name), Lower(term)) || Includes(Lower(p.serviceType), Lower(term))
  }

  /** The filter panel's state. */
  datatype Filters = Filters(serviceType: string, minRating: int, verifiedOnly: bool)

  /** The four conditions a listed provider must meet together. */
  predicate Shown(p: Listing, term: string, f: Filters)
  {
    && MatchesSearch(p, term)
    && (f.serviceType == "" || p.serviceType == f.serviceType)
    && AverageRating(p.ratings) >= f.minRating as real
    && (!f.verifiedOnly || p.isVerified)
  }

  /** The providers that pass, in their original order. */
  function FilteredProviders(providers: seq<Listing>, term: string, f: Filters): (r: seq<Listing>)
    ensures SubsequenceOf(r, providers)
    ensures forall p :: p in r <==> p in providers && Shown(p, term, f)
  {
    Filter(providers, (p: Listing) => Shown(p, term, f))
  }

  /** A provider without reviews passes the rating filter exactly when the minimum is not above 0. */
  lemma NoReviewsRatingFilter(p: Listing, f: Filters)
    requires |p.ratings| == 0
    ensures AverageRating(p.ratings) >= f.minRating as real <==> f.minRating <= 0
  {
  }

  /** A search term found verbatim in the name is found by the case-insensitive search. */
  lemma NameOccurrenceMatches(p: Listing, term: string)
    requires Includes(p.name, term)
    ensures MatchesSearch(p, term)
  {
    var i :| 0 <= i <= |p.name| - |term| && OccursAt(p.name, term, i);
    var name, low := p.name, Lower(p.name);
    forall k | 0 <= k < |term|
      ensures low[i..i + |term|][k] == Lower(term)[k]
    {
      assert name[i + k] == term[k] by { assert name[i..i + |term|][k] == name[i + k]; }
    }
    assert OccursAt(Lower(p.name), Lower(term), i);
  }

  /** Two search terms that differ only in letter case select the same providers. */
  lemma SearchIgnoresCase(p: Listing, term: string, other: string)
    requires Lower(term) == Lower(other)
    ensures MatchesSearch(p, term) == MatchesSearch(p, other)
    ensures MatchesSearch(p, term) == MatchesSearch(p, Lower(term))
  {
    LowerIdempotent(term);
  }

  /** `resetFilters`: every filter back to its default. */
  function ResetFilters(): (f: Filters)
    ensures f.serviceType == "" && f.minRating == 0 && !f.verifiedOnly
    ensures ActiveFilterCount(f) == 0
  {
    Filters("", 0, false)
  }

  /** The badge on the filter button: how many of the three filters differ from their default. */
  function ActiveFilterCount(f: Filters): (n: int)
    ensures 0 <= n <= 3
    ensures n == 0 <==> f.serviceType == "" && f.minRating <= 0 && !f.verifiedOnly
    ensures n == 3 <==> f.serviceType != "" && f.minRating > 0 && f.verifiedOnly
  {
    (if f.serviceType != "" then 1 else 0) + (if f.minRating > 0 then 1 else 0) + (if f.verifiedOnly then 1 else 0)
  }

  /** Turning on one filter that was off raises the badge by exactly one. */
  lemma ActiveFilterCountSteps(f: Filters, serviceType: string, minRating: int)
    ensures f.serviceType == "" && serviceType != "" ==>
              ActiveFilterCount(f.(serviceType := serviceType)) == ActiveFilterCount(f) + 1
    ensures f.minRating <= 0 && minRating > 0 ==>
              ActiveFilterCount(f.(minRating := minRating)) == ActiveFilterCount(f) + 1
    ensures !f.verifiedOnly ==> ActiveFilterCount(f.(verifiedOnly := true)) == ActiveFilterCount(f) + 1
  {
  }

  /** With the filters reset and no search text, every provider whose ratings are not negative is listed. */
  lemma ResetListsEveryone(providers: seq<Listing>)
    requires forall i, j :: 0 <= i < |providers| && 0 <= j < |providers[i].ratings| ==> providers[i].ratings[j] >= 0
    ensures FilteredProviders(providers, "", ResetFilters()) == providers
  {
    forall i | 0 <= i < |providers|
      ensures Shown(providers[i], "", ResetFilters())
    {
      var rs := providers[i].ratings;
      if |rs| > 0 {
        SumAtLeast(rs, 0);
        AverageAtLeast(rs, 0);
      }
    }
    FilterKeepsAll(providers, (p: Listing) => Shown(p, "", ResetFilters()));
  }

  /** The sample providers the page shows when the fetch returned none. */
  const SampleProviders: seq<Listing> := [
    Listing("1", "Clean Home Services", "Cleaning", "123 Main St, Anytown", "(555) 123-4567", true, [5, 4, 5]),
    Listing("2", "FixIt Plumbing", "Plumbing", "456 Oak Ave, Somewhere", "(555) 987-6543", true, [4, 3, 5]),
    Listing("3", "ElectriPro Solutions", "Electrical", "789 Elm Blvd, Nowhere", "(555) 456-7890", false, [5, 5]),
    Listing("4", "Green Thumb Gardens", "Gardening", "101 Pine Ln, Everywhere", "(555) 234-5678", true, [4, 4, 3]),
    Listing("5", "Knowledge Tutors", "Tutoring", "202 Cedar St, Anytown", "(555) 345-6789", false, [5, 5, 4]),
    Listing("6", "Business Advisory Group", "Consulting", "303 Maple Dr, Somewhere", "(555) 567-8901", true, [4, 4, 4])
  ]

  /**
   * The list on screen: the filtered providers when any were fetched; otherwise the sample
   * providers, with no search or filter applied to them.
   */
  function DisplayProviders(fetched: seq<Listing>, term: string, f: Filters): (r: seq<Listing>)
    ensures |fetched| == 0 ==> r == SampleProviders
    ensures |fetched| > 0 ==> r == FilteredProviders(fetched, term, f)
    ensures |fetched| > 0 ==> SubsequenceOf(r, fetched) && forall p :: p in r <==> p in fetched && Shown(p, term, f)
  {
    if |fetched| > 0 then FilteredProviders(fetched, term, f) else SampleProviders
  }
}
