/** The searchable destination list: a case-insensitive filter and the row's tag summary. */
module DestinationSearch {
  import opened Destinations

  /** ASCII lower-casing of one character. */
  function LowerChar(c: char): char
  {
    if 'A' <= c <= 'Z' then (c as int + 32) as char else c
  }

  /** `lowercased()`, restricted to ASCII letters. */
  function Lower(s: string): (r: string)
    ensures |r| == |s|
    ensures forall i :: 0 <= i < |s| ==> r[i] == LowerChar(s[i])
  {
    seq(|s|, i requires 0 <= i < |s| => LowerChar(s[i]))
  }

  /** Lower-casing is idempotent. */
  lemma LowerIdempotent(s: string)
    ensures Lower(Lower(s)) == Lower(s)
  {
  }

  /** `needle` occurs in `hay` starting at position `i`. */
  predicate OccursAt(hay: string, needle: string, i: int)
  {
    0 <= i && i + |needle| <= |hay| && hay[i..i + |needle|] == needle
  }

  /** String `contains`: `needle` occurs somewhere in `hay`. */
  function Contains(hay: string, needle: string): (r: bool)
    ensures r <==> exists i :: OccursAt(hay, needle, i)
    decreases |hay|
  {
    if |needle| <= |hay| && hay[..|needle|] == needle then
      assert OccursAt(hay, needle, 0);
      true
    else if hay == [] then
      false
    else
      var r := Contains(hay[1..], needle);
      if r then
        var i :| OccursAt(hay[1..], needle, i);
        assert hay[i + 1..i + 1 + |needle|] == hay[1..][i..i + |needle|];
        assert OccursAt(hay, needle, i + 1);
        true
      else
        assert forall i :: OccursAt(hay, needle, i) ==> i > 0 && OccursAt(hay[1..], needle, i - 1) by {
          assert !OccursAt(hay, needle, 0);
          forall i | OccursAt(hay, needle, i)
            ensures i > 0 && OccursAt(hay[1..], needle, i - 1)
          {
            assert hay[1..][i - 1..i - 1 + |needle|] == hay[i..i + |needle|];
          }
        }
        false
  }

  /** `tags.contains(where: { $0.lowercased().contains(query) })`. */
  function AnyTagContains(tags: seq<string>, query: string): (r: bool)
    ensures r <==> exists i :: 0 <= i < |tags| && Contains(Lower(tags[i]), query)
    decreases |tags|
  {
    if tags == [] then false
    else if Contains(Lower(tags[0]), query) then true
    else
      var r := AnyTagContains(tags[1..], query);
      assert forall i :: 1 <= i < |tags| ==> tags[i] == tags[1..][i - 1];
      r
  }

  /** The filter's test for one destination, against an already lower-cased query. */
  predicate Matches(d: Destination, query: string)
  {
    Contains(Lower(d.name), query) || Contains(Lower(d.country), query) || AnyTagContains(d.tags, query)
  }

  /** `filter` over the destination list. */
  function Filter(ds: seq<Destination>, query: string): (r: seq<Destination>)
    ensures |r| <= |ds|
    ensures forall d :: d in r <==> d in ds && Matches(d, query)
    ensures forall d :: multiset(r)[d] == if Matches(d, query) then multiset(ds)[d] else 0
    decreases |ds|
  {
    if ds == [] then []
    else
      var rest := Filter(ds[1..], query);
      assert ds == [ds[0]] + ds[1..];
      if Matches(ds[0], query) then [ds[0]] + rest else rest
  }

  /** `filteredDestinations`: everything for an empty search text, otherwise the destinations
      whose name, country or some tag contains the lower-cased text. */
  function FilteredDestinations(ds: seq<Destination>, searchText: string): seq<Destination>
  {
    if searchText == [] then ds else Filter(ds, Lower(searchText))
  }

  /** `a` is `b` with some elements left out and the rest in their original order. */
  predicate IsSubsequence<T(==)>(a: seq<T>, b: seq<T>)
    decreases |b|
  {
    if a == [] then true
    else if b == [] then false
    else if a[0] == b[0] then IsSubsequence(a[1..], b[1..])
    else IsSubsequence(a, b[1..])
  }

  /** Putting an element in front of the longer sequence keeps a subsequence one. */
  lemma {:induction false} SubsequenceOfCons<T>(a: seq<T>, x: T, b: seq<T>)
    requires IsSubsequence(a, b)
    ensures IsSubsequence(a, [x] + b)
    decreases |b|, 1
  {
    assert ([x] + b)[1..] == b;
    if a != [] && a[0] == x {
      SubsequenceTail(a, b);
    }
  }

  /** Dropping the first element of a subsequence keeps it a subsequence. */
  lemma {:induction false} SubsequenceTail<T>(a: seq<T>, b: seq<T>)
    requires a != [] && IsSubsequence(a, b)
    ensures IsSubsequence(a[1..], b)
    decreases |b|, 0
  {
    assert [b[0]] + b[1..] == b;
    if a[0] == b[0] {
      SubsequenceOfCons(a[1..], b[0], b[1..]);
    } else {
      SubsequenceTail(a, b[1..]);
      SubsequenceOfCons(a[1..], b[0], b[1..]);
    }
  }

  /** The filter keeps the destinations' order: its result is a subsequence of the input. */
  lemma {:induction false} FilterIsSubsequence(ds: seq<Destination>, query: string)
    ensures IsSubsequence(Filter(ds, query), ds)
    decreases |ds|
  {
    if ds != [] {
      FilterIsSubsequence(ds[1..], query);
      var rest := Filter(ds[1..], query);
      if Matches(ds[0], query) {
        assert ([ds[0]] + rest)[1..] == rest;
      } else {
        SubsequenceOfCons(rest, ds[0], ds[1..]);
        assert [ds[0]] + ds[1..] == ds;
      }
    }
  }

  /** What the search shows: everything in order for empty text; otherwise an order-preserving
      selection holding exactly the matching destinations, each as often as in the list. */
  lemma FilteredDestinationsSpec(ds: seq<Destination>, searchText: string)
    ensures searchText == [] ==> FilteredDestinations(ds, searchText) == ds
    ensures IsSubsequence(FilteredDestinations(ds, searchText), ds)
    ensures searchText != [] ==> forall d ::
      d in FilteredDestinations(ds, searchText) <==> d in ds && Matches(d, Lower(searchText))
  {
    if searchText == [] {
      SubsequenceReflexive(ds);
    } else {
      FilterIsSubsequence(ds, Lower(searchText));
    }
  }

  lemma {:induction false} SubsequenceReflexive<T>(s: seq<T>)
    ensures IsSubsequence(s, s)
    decreases |s|
  {
    if s != [] {
      SubsequenceReflexive(s[1..]);
    }
  }

  /** Search texts that differ only in letter case give the same list. */
  lemma SearchIgnoresCase(ds: seq<Destination>, a: string, b: string)
    requires Lower(a) == Lower(b)
    ensures FilteredDestinations(ds, a) == FilteredDestinations(ds, b)
  {
    assert |a| == |Lower(a)| == |Lower(b)| == |b|;
  }

  /** `joined(separator:)`. */
  function Join(parts: seq<string>, separator: string): string
    decreases |parts|
  {
    if parts == [] then ""
    else if |parts| == 1 then parts[0]
    else parts[0] + separator + Join(parts[1..], separator)
  }

  /** The row's tag summary: `tags.prefix(2).joined(separator: ", ")`. */
  function TagSummary(tags: seq<string>): (r: string)
    ensures |tags| == 0 ==> r == ""
    ensures |tags| == 1 ==> r == tags[0]
    ensures |tags| >= 2 ==> r == tags[0] + ", " + tags[1]
  {
    var shown := if |tags| <= 2 then tags else tags[..2];
    assert |shown| == 2 ==> shown[1..] == [tags[1]] && Join(shown[1..], ", ") == tags[1];
    Join(shown, ", ")
  }

  /** The summary only ever shows the first two tags. */
  lemma TagSummaryIgnoresLaterTags(tags: seq<string>, more: seq<string>)
    requires |tags| >= 2
    ensures TagSummary(tags + more) == TagSummary(tags)
  {
  }
}
