/**
 * The bots' view of a venue directory entry and of a search request, the
 * name-matching rule both Python bots share, and an order-preserving filter
 * with the facts every venue search relies on.
 */
module Venues {
  import opened Wrappers
  import opened Text
  import opened Values

  function Min(a: int, b: int): int {
    if a <= b then a else b
  }

  /**
   * A venue's `description`: absent (or `null`), a string, or the list of
   * paragraphs the directory sends.
   */
  datatype Description = NoDescription | DescText(text: string) | DescLines(lines: seq<string>)

  /**
   * A venue's `location` object. An absent or empty object is `None` on the
   * venue; `Some` is an object with at least one key, so a place whose five
   * fields are all missing stands for an object holding only other keys.
   */
  datatype VenuePlace = VenuePlace(
    dataCenter: Option<string>,
    world: Option<string>,
    district: Option<string>,
    ward: JsonValue,
    plot: JsonValue)

  /**
   * A directory venue. Text fields the bots only test for truthiness
   * (`website`, `discord`, `mareCode`, `marePassword`) use `""` for absent;
   * `sfw` is `true` when absent, as `venue.get("sfw", True)` reads it.
   */
  datatype Venue = Venue(
    name: string,
    description: Description,
    place: Option<VenuePlace>,
    tags: seq<string>,
    website: string,
    discord: string,
    sfw: bool,
    mareCode: string,
    marePassword: string)

  /** `venue.get('location', {}).get('world', '')`. */
  function VenueWorld(v: Venue): string {
    if v.place.Some? then v.place.value.world.GetOr("") else ""
  }

  /** `venue.get('location', {}).get('district', '')`. */
  function VenueDistrict(v: Venue): string {
    if v.place.Some? then v.place.value.district.GetOr("") else ""
  }

  /** `venue.get('location', {}).get('ward')`. */
  function VenueWard(v: Venue): JsonValue {
    if v.place.Some? then v.place.value.ward else Missing
  }

  /** `venue.get('location', {}).get('plot')`. */
  function VenuePlot(v: Venue): JsonValue {
    if v.place.Some? then v.place.value.plot else Missing
  }

  /**
   * The `location` object of a search request, as the plugin sends it.
   * `otherKeys` records whether it carries keys besides these five (the
   * plugin also sends `territoryId` and `timestamp`).
   */
  datatype SearchLocation = SearchLocation(
    server: Option<string>,
    district: Option<string>,
    ward: JsonValue,
    plot: JsonValue,
    territoryName: Option<string>,
    otherKeys: bool)

  /** Python truthiness of the location object: a non-empty dictionary. */
  predicate LocationNonEmpty(loc: SearchLocation) {
    || loc.otherKeys
    || loc.server.Some?
    || loc.district.Some?
    || !loc.ward.Missing?
    || !loc.plot.Missing?
    || loc.territoryName.Some?
  }

  /**
   * The Python bots' server and district rule: after lower-casing, a venue
   * is kept when either name is empty or one contains the other.
   */
  predicate NamesAgree(requested: string, offered: string) {
    var a := Lower(requested);
    var b := Lower(offered);
    !(a != "" && b != "") || Contains(b, a) || Contains(a, b)
  }

  /** The name rule works the same in both directions. */
  lemma NamesAgreeSymmetric(a: string, b: string)
    ensures NamesAgree(a, b) == NamesAgree(b, a)
  {
  }

  /** The name rule ignores letter case on the requested side. */
  lemma {:induction false} NamesAgreeIgnoresCase(a: string, b: string)
    ensures NamesAgree(Lower(a), b) == NamesAgree(a, b)
  {
    LowerIdempotent(a);
  }

  /** A name agrees with any name that contains it, whatever the case. */
  lemma NamesAgreeOnContainment(a: string, b: string)
    requires Contains(Lower(b), Lower(a))
    ensures NamesAgree(a, b) && NamesAgree(b, a)
  {
  }

  /** A name always agrees with itself. */
  lemma NamesAgreeReflexive(a: string)
    ensures NamesAgree(a, a)
  {
    ContainsSelf(Lower(a));
  }

  /**
   * `a` can be obtained from `b` by deleting elements: `a` is `b`'s
   * elements in `b`'s order, some of them left out.
   */
  predicate IsSubsequence<T(==)>(a: seq<T>, b: seq<T>)
    decreases |b|
  {
    if a == [] then true
    else if b == [] then false
    else if a[0] == b[0] then IsSubsequence(a[1..], b[1..])
    else IsSubsequence(a, b[1..])
  }

  lemma {:induction false} SubsequenceDropFirst<T>(a: seq<T>, b: seq<T>)
    requires a != [] && IsSubsequence(a, b)
    ensures IsSubsequence(a[1..], b)
    decreases |b|
  {
    if a[0] == b[0] {
      if a[1..] != [] && a[1..][0] != b[0] {
        assert IsSubsequence(a[1..], b[1..]);
      } else if a[1..] != [] {
        SubsequenceDropFirst(a[1..], b[1..]);
      }
    } else {
      SubsequenceDropFirst(a, b[1..]);
      if a[1..] != [] && a[1..][0] == b[0] {
        SubsequenceDropFirst(a[1..], b[1..]);
      }
    }
  }

  /** A subsequence stays one when an element is put in front of the whole sequence. */
  lemma SubsequenceExtend<T>(a: seq<T>, b: seq<T>, x: T)
    requires IsSubsequence(a, b)
    ensures IsSubsequence(a, [x] + b)
  {
    assert ([x] + b)[1..] == b;
    if a != [] && a[0] == x {
      SubsequenceDropFirst(a, b);
    }
  }

  /**
   * The elements of `xs` that `keep` accepts, in their original order:
   * the loop that appends each accepted venue to the result list.
   */
  function Filter<T(==, !new)>(keep: T -> bool, xs: seq<T>): (r: seq<T>)
    ensures IsSubsequence(r, xs)
    ensures forall i :: 0 <= i < |r| ==> keep(r[i])
    ensures forall x :: multiset(r)[x] == if keep(x) then multiset(xs)[x] else 0
  {
    if xs == [] then []
    else
      var rest := Filter(keep, xs[1..]);
      assert xs == [xs[0]] + xs[1..];
      if keep(xs[0]) then
        assert ([xs[0]] + rest)[1..] == rest;
        assert ([xs[0]] + xs[1..])[1..] == xs[1..];
        [xs[0]] + rest
      else
        SubsequenceExtend(rest, xs[1..], xs[0]);
        rest
  }

  /** An element is in the filtered list exactly when it is in the input and accepted. */
  lemma FilterMembership<T(!new)>(keep: T -> bool, xs: seq<T>, x: T)
    ensures x in Filter(keep, xs) <==> x in xs && keep(x)
  {
    assert x in Filter(keep, xs) <==> multiset(Filter(keep, xs))[x] > 0;
    assert x in xs <==> multiset(xs)[x] > 0;
  }

  /** A list without repetitions filters to a list without repetitions. */
  lemma FilterKeepsDistinct<T(!new)>(keep: T -> bool, xs: seq<T>)
    requires forall x :: multiset(xs)[x] <= 1
    ensures forall x :: multiset(Filter(keep, xs))[x] <= 1
  {
  }

  /** Filtering never lengthens the list. */
  lemma {:induction false} FilterShorter<T(!new)>(keep: T -> bool, xs: seq<T>)
    ensures |Filter(keep, xs)| <= |xs|
  {
    if xs != [] {
      FilterShorter(keep, xs[1..]);
    }
  }

  /** Two tests that agree on every element of `xs` filter it to the same list. */
  lemma {:induction false} FilterCongruent<T(!new)>(keep: T -> bool, keep': T -> bool, xs: seq<T>)
    requires forall i :: 0 <= i < |xs| ==> keep(xs[i]) == keep'(xs[i])
    ensures Filter(keep, xs) == Filter(keep', xs)
  {
    if xs != [] {
      FilterCongruent(keep, keep', xs[1..]);
    }
  }

  /** The elements a raising test keeps: those it answers `true` for without raising. */
  function KeptBy<T, E>(check: T -> Result<bool, E>): T -> bool {
    x => check(x) == Ok(true)
  }

  /**
   * A filter whose test may raise: the loop stops at the first element
   * whose test raises and passes that error on; otherwise it keeps the
   * elements whose test says `true`, in order.
   */
  function TryFilter<T(==, !new), E>(check: T -> Result<bool, E>, xs: seq<T>): (r: Result<seq<T>, E>)
    ensures r.Ok? <==> forall i :: 0 <= i < |xs| ==> check(xs[i]).Ok?
    ensures r.Ok? ==> r.value == Filter(KeptBy(check), xs)
  {
    if xs == [] then Ok([])
    else match check(xs[0])
      case Err(e) => Err(e)
      case Ok(keep) =>
        match TryFilter(check, xs[1..])
        case Err(e) =>
          var i :| 0 <= i < |xs[1..]| && check(xs[1..][i]).Err?;
          assert check(xs[i + 1]).Err?;
          Err(e)
        case Ok(rest) =>
          assert forall i :: 0 <= i < |xs| ==> check(xs[i]).Ok? by {
            forall i | 0 <= i < |xs|
              ensures check(xs[i]).Ok?
            {
              if i > 0 {
                assert xs[i] == xs[1..][i - 1];
              }
            }
          }
          assert KeptBy(check)(xs[0]) == keep;
          Ok(if keep then [xs[0]] + rest else rest)
  }

  /**
   * A failed `TryFilter` carries the error of the first element whose test
   * raises; every element before it was tested without raising.
   */
  lemma {:induction false} TryFilterRaisesFirstError<T(!new), E>(check: T -> Result<bool, E>, xs: seq<T>)
    requires TryFilter(check, xs).Err?
    ensures exists i ::
      && 0 <= i < |xs|
      && check(xs[i]) == Err(TryFilter(check, xs).error)
      && forall j :: 0 <= j < i ==> check(xs[j]).Ok?
  {
    var e := TryFilter(check, xs).error;
    if check(xs[0]).Err? {
      assert check(xs[0]) == Err(e);
    } else {
      TryFilterRaisesFirstError(check, xs[1..]);
      var i :| 0 <= i < |xs[1..]| && check(xs[1..][i]) == Err(e)
        && forall j :: 0 <= j < i ==> check(xs[1..][j]).Ok?;
      assert check(xs[i + 1]) == Err(e);
      forall j | 0 <= j < i + 1
        ensures check(xs[j]).Ok?
      {
        if j > 0 {
          assert xs[j] == xs[1..][j - 1];
        }
      }
    }
  }
}
