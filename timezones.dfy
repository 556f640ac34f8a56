/**
 * The timezone list of the timestamp converter: duplicate values dropped (first entry kept), the
 * rest ordered by region and then by label, searched case-insensitively from the dropdown, and
 * the user's own zone picked from it.
 */
module Timezones {
  import opened Options
  import opened Strings
  import opened Ordering

  /** An entry of the timezone table: the IANA name and the text shown for it. */
  datatype Timezone = Timezone(value: string, title: string)

  // ---------------------------------------------------------------- duplicates

  predicate HasValue(zones: seq<Timezone>, v: string) {
    exists k | 0 <= k < |zones| :: zones[k].value == v
  }

  predicate DistinctValues(zones: seq<Timezone>) {
    forall i, j | 0 <= i < j < |zones| :: zones[i].value != zones[j].value
  }

  /**
   * `uniqueTimezones`: the reduce that appends an entry to the accumulator unless an entry with
   * the same value is already there.
   */
  function Dedup(zones: seq<Timezone>): seq<Timezone> {
    if zones == [] then []
    else
      var acc := Dedup(zones[..|zones| - 1]);
      var z := zones[|zones| - 1];
      if HasValue(acc, z.value) then acc else acc + [z]
  }

  lemma HasValueSnoc(zones: seq<Timezone>, z: Timezone, v: string)
    ensures HasValue(zones + [z], v) <==> HasValue(zones, v) || z.value == v
  {
    if HasValue(zones, v) {
      var k :| 0 <= k < |zones| && zones[k].value == v;
      assert (zones + [z])[k].value == v;
    }
    if z.value == v {
      assert (zones + [z])[|zones|].value == v;
    }
  }

  /** The values kept are exactly the values of the input, each once. */
  lemma {:induction false} DedupValues(zones: seq<Timezone>)
    ensures DistinctValues(Dedup(zones))
    ensures forall v :: HasValue(Dedup(zones), v) <==> HasValue(zones, v)
  {
    if zones != [] {
      var init, z := zones[..|zones| - 1], zones[|zones| - 1];
      assert zones == init + [z];
      DedupValues(init);
      var acc := Dedup(init);
      forall v
        ensures HasValue(Dedup(zones), v) <==> HasValue(zones, v)
      {
        HasValueSnoc(init, z, v);
        HasValueSnoc(acc, z, v);
      }
      if !HasValue(acc, z.value) {
        forall i, j | 0 <= i < j < |acc| + 1
          ensures (acc + [z])[i].value != (acc + [z])[j].value
        {
          if j == |acc| {
            assert acc[i].value == (acc + [z])[i].value;
          }
        }
      }
    }
  }

  /**
   * Where each kept entry sits in the input: the positions rise (first-occurrence order is kept)
   * and no earlier input entry has the same value (it is the first entry for its value).
   */
  lemma {:induction false} DedupPositions(zones: seq<Timezone>) returns (pos: seq<nat>)
    ensures |pos| == |Dedup(zones)|
    ensures forall k | 0 <= k < |pos| :: pos[k] < |zones| && zones[pos[k]] == Dedup(zones)[k]
    ensures forall k | 0 <= k < |pos| :: forall j | 0 <= j < pos[k] :: zones[j].value != zones[pos[k]].value
    ensures forall k, l | 0 <= k < l < |pos| :: pos[k] < pos[l]
  {
    if zones == [] {
      pos := [];
    } else {
      var init, z := zones[..|zones| - 1], zones[|zones| - 1];
      var acc := Dedup(init);
      pos := DedupPositions(init);
      DedupValues(init);
      if !HasValue(acc, z.value) {
        forall j | 0 <= j < |init|
          ensures init[j].value != z.value
        {
          assert HasValue(init, init[j].value);
        }
        pos := pos + [|zones| - 1];
      }
    }
  }

  /** The reduce written as the loop it runs. */
  method UniqueTimezones(zones: seq<Timezone>) returns (acc: seq<Timezone>)
    ensures acc == Dedup(zones)
  {
    acc := [];
    for i := 0 to |zones|
      invariant acc == Dedup(zones[..i])
    {
      assert zones[..i + 1][..i] == zones[..i];
      if !HasValue(acc, zones[i].value) {
        acc := acc + [zones[i]];
      }
    }
    assert zones[..|zones|] == zones;
  }

  // ---------------------------------------------------------------- region priority

  /** The region table in its declaration order; an entry's priority is its position plus one. */
  const RegionPrefixes: seq<string> :=
    ["America/", "Europe/", "Africa/", "Asia/", "Australia/", "Pacific/", "Atlantic/", "Indian/",
     "Antarctica/", "UTC", "GMT"]

  const UnlistedPriority: nat := 99

  function PriorityFrom(value: string, i: nat): nat
    decreases |RegionPrefixes| - i
  {
    if i >= |RegionPrefixes| then UnlistedPriority
    else if StartsWith(value, RegionPrefixes[i]) then i + 1
    else PriorityFrom(value, i + 1)
  }

  function RegionPriority(value: string): nat {
    PriorityFrom(value, 0)
  }

  lemma {:induction false} PriorityFromMeaning(value: string, i: nat)
    requires i <= |RegionPrefixes|
    ensures var p := PriorityFrom(value, i);
      (p == UnlistedPriority && forall k | i <= k < |RegionPrefixes| :: !StartsWith(value, RegionPrefixes[k]))
      || (i < p <= |RegionPrefixes| && StartsWith(value, RegionPrefixes[p - 1])
          && forall k | i <= k < p - 1 :: !StartsWith(value, RegionPrefixes[k]))
    decreases |RegionPrefixes| - i
  {
    if i < |RegionPrefixes| && !StartsWith(value, RegionPrefixes[i]) {
      PriorityFromMeaning(value, i + 1);
    }
  }

  /**
   * `getRegionPriority`: the priority of the first prefix of the table the value starts with,
   * and 99 exactly when it starts with none of them.
   */
  lemma RegionPriorityMeaning(value: string)
    ensures var p := RegionPriority(value);
      (p == UnlistedPriority <==> forall k | 0 <= k < |RegionPrefixes| :: !StartsWith(value, RegionPrefixes[k]))
      && (p != UnlistedPriority ==>
            1 <= p <= |RegionPrefixes| && StartsWith(value, RegionPrefixes[p - 1])
            && forall k | 0 <= k < p - 1 :: !StartsWith(value, RegionPrefixes[k]))
  {
    PriorityFromMeaning(value, 0);
  }

  /** The for-of loop over the table with its early return. */
  method GetRegionPriority(value: string) returns (p: nat)
    ensures p == RegionPriority(value)
  {
    for i := 0 to |RegionPrefixes|
      invariant PriorityFrom(value, i) == RegionPriority(value)
    {
      if StartsWith(value, RegionPrefixes[i]) {
        return i + 1;
      }
    }
    return UnlistedPriority;
  }

  // ---------------------------------------------------------------- sorting

  /**
   * The comparator of the sort gives `a` a place before `b` (returns zero or less): a smaller
   * region priority, or the same one and a label that does not come after.
   */
  predicate InOrder(a: Timezone, b: Timezone) {
    var pa, pb := RegionPriority(a.value), RegionPriority(b.value);
    pa < pb || (pa == pb && !Less(b.title, a.title))
  }

  predicate SortedZones(s: seq<Timezone>) {
    forall i, j | 0 <= i < j < |s| :: InOrder(s[i], s[j])
  }

  lemma InOrderTotal(a: Timezone, b: Timezone)
    ensures InOrder(a, b) || InOrder(b, a)
  {
    if Less(a.title, b.title) && Less(b.title, a.title) {
      LessTransitive(a.title, b.title, a.title);
      LessIrreflexive(a.title);
    }
  }

  lemma InOrderTransitive(a: Timezone, b: Timezone, c: Timezone)
    requires InOrder(a, b) && InOrder(b, c)
    ensures InOrder(a, c)
  {
    if RegionPriority(a.value) == RegionPriority(b.value) == RegionPriority(c.value)
       && Less(c.title, a.title) && a.title != b.title
    {
      LessTotal(a.title, b.title);
      LessTransitive(c.title, a.title, b.title);
    }
  }

  function InsertZone(x: Timezone, s: seq<Timezone>): (r: seq<Timezone>)
    requires SortedZones(s)
    ensures SortedZones(r) && multiset(r) == multiset(s) + multiset{x}
  {
    if s == [] then [x]
    else if InOrder(x, s[0]) then
      assert forall j | 0 <= j < |s| :: InOrder(x, s[j]) by {
        forall j | 0 <= j < |s|
          ensures InOrder(x, s[j])
        {
          if j > 0 {
            InOrderTransitive(x, s[0], s[j]);
          }
        }
      }
      [x] + s
    else
      InOrderTotal(x, s[0]);
      assert s == [s[0]] + s[1..];
      var rest := InsertZone(x, s[1..]);
      assert forall j | 0 <= j < |rest| :: InOrder(s[0], rest[j]) by {
        forall j | 0 <= j < |rest|
          ensures InOrder(s[0], rest[j])
        {
          assert rest[j] in multiset(rest);
        }
      }
      [s[0]] + rest
  }

  /** `Array.prototype.sort` with the region comparator: ordered, and a permutation of its input. */
  function SortZones(s: seq<Timezone>): (r: seq<Timezone>)
    ensures SortedZones(r) && multiset(r) == multiset(s)
  {
    if s == [] then []
    else
      assert s == [s[0]] + s[1..];
      InsertZone(s[0], SortZones(s[1..]))
  }

  /** `sortedTimezones`, built from the timezone table. */
  function SortedTimezones(table: seq<Timezone>): seq<Timezone> {
    SortZones(Dedup(table))
  }

  /** Reordering a list changes neither the values it holds nor whether they repeat. */
  lemma PermutationValues(s: seq<Timezone>, d: seq<Timezone>, v: string)
    requires multiset(s) == multiset(d)
    ensures HasValue(s, v) <==> HasValue(d, v)
  {
    if HasValue(s, v) {
      var k :| 0 <= k < |s| && s[k].value == v;
      assert s[k] in multiset(d);
      var m :| 0 <= m < |d| && d[m] == s[k];
    }
    if HasValue(d, v) {
      var k :| 0 <= k < |d| && d[k].value == v;
      assert d[k] in multiset(s);
      var m :| 0 <= m < |s| && s[m] == d[k];
    }
  }

  lemma TwoPositions(s: seq<Timezone>, i: nat, j: nat)
    requires i < j < |s| && s[i] == s[j]
    ensures multiset(s)[s[i]] >= 2
  {
    assert s == s[..i] + [s[i]] + s[i + 1..j] + [s[j]] + s[j + 1..];
  }

  /** An element that occurs twice in a list occurs at a second position. */
  lemma OtherOccurrence(d: seq<Timezone>, a: nat) returns (c: nat)
    requires a < |d| && multiset(d)[d[a]] >= 2
    ensures c < |d| && c != a && d[c] == d[a]
  {
    var rest := d[..a] + d[a + 1..];
    assert d == d[..a] + [d[a]] + d[a + 1..];
    assert d[a] in multiset(rest);
    var m :| 0 <= m < |rest| && rest[m] == d[a];
    c := if m < a then m else m + 1;
  }

  lemma PermutationDistinct(s: seq<Timezone>, d: seq<Timezone>)
    requires multiset(s) == multiset(d) && DistinctValues(d)
    ensures DistinctValues(s)
  {
    forall i, j | 0 <= i < j < |s|
      ensures s[i].value != s[j].value
    {
      assert s[i] in multiset(d) && s[j] in multiset(d);
      var a :| 0 <= a < |d| && d[a] == s[i];
      var b :| 0 <= b < |d| && d[b] == s[j];
      if s[i] == s[j] {
        TwoPositions(s, i, j);
        var c := OtherOccurrence(d, a);
      } else {
        assert a != b;
      }
    }
  }

  /** The sorted list holds each value of the table exactly once, in the comparator's order. */
  lemma SortedTimezonesValues(table: seq<Timezone>)
    ensures SortedZones(SortedTimezones(table)) && DistinctValues(SortedTimezones(table))
    ensures forall v :: HasValue(SortedTimezones(table), v) <==> HasValue(table, v)
  {
    var d := Dedup(table);
    DedupValues(table);
    PermutationDistinct(SortZones(d), d);
    forall v
      ensures HasValue(SortZones(d), v) <==> HasValue(d, v)
    {
      PermutationValues(SortZones(d), d, v);
    }
  }

  // ---------------------------------------------------------------- search

  /** The search test against the lower-cased term. */
  predicate Matches(z: Timezone, searchLower: string) {
    Contains(ToLower(z.title), searchLower) || Contains(ToLower(z.value), searchLower)
  }

  function FilterMatching(zones: seq<Timezone>, searchLower: string): (r: seq<Timezone>)
    ensures |r| <= |zones|
    ensures forall z :: z in r <==> z in zones && Matches(z, searchLower)
  {
    if zones == [] then []
    else
      var rest := FilterMatching(zones[1..], searchLower);
      assert forall z :: z in zones <==> z == zones[0] || z in zones[1..];
      if Matches(zones[0], searchLower) then [zones[0]] + rest else rest
  }

  /** The filter keeps the list's order: filtering a concatenation filters each part. */
  lemma {:induction false} FilterMatchingConcat(a: seq<Timezone>, b: seq<Timezone>, searchLower: string)
    ensures FilterMatching(a + b, searchLower) == FilterMatching(a, searchLower) + FilterMatching(b, searchLower)
  {
    if a == [] {
      assert a + b == b;
    } else {
      assert (a + b)[1..] == a[1..] + b;
      FilterMatchingConcat(a[1..], b, searchLower);
    }
  }

  /**
   * `filteredTimezones`: the whole list for an empty term, otherwise the entries whose label or
   * value holds the term, case aside.
   */
  function FilteredTimezones(sorted: seq<Timezone>, searchTerm: string): (r: seq<Timezone>)
    ensures searchTerm == [] ==> r == sorted
    ensures searchTerm != [] ==> forall z :: z in r <==> z in sorted && Matches(z, ToLower(searchTerm))
  {
    if searchTerm == [] then sorted else FilterMatching(sorted, ToLower(searchTerm))
  }

  // ---------------------------------------------------------------- the user's zone

  /** `tz.split("/")[0]`: the text before the first slash. */
  function Region(tz: string): (r: string)
    ensures '/' !in r
    ensures r == tz || (|r| < |tz| && tz[|r|] == '/' && tz[..|r|] == r)
  {
    if tz == [] || tz[0] == '/' then []
    else [tz[0]] + Region(tz[1..])
  }

  /** `find` with a prefix test: the first entry whose value starts with `prefix`. */
  function FirstWithPrefix(zones: seq<Timezone>, prefix: string): (r: Option<Timezone>)
    ensures r.None? <==> forall k | 0 <= k < |zones| :: !StartsWith(zones[k].value, prefix)
    ensures r.Some? ==> exists k | 0 <= k < |zones| :: zones[k] == r.value
                          && StartsWith(r.value.value, prefix)
                          && forall j | 0 <= j < k :: !StartsWith(zones[j].value, prefix)
  {
    if zones == [] then None
    else if StartsWith(zones[0].value, prefix) then Some(zones[0])
    else
      var r := FirstWithPrefix(zones[1..], prefix);
      assert forall k | 1 <= k < |zones| :: zones[k] == zones[1..][k - 1];
      r
  }

  const ChinaFallback := "Asia/Shanghai"
  const LastResort := "UTC"

  /**
   * `getUserTimezone`, given the zone the runtime reports (`None` when asking for it throws):
   * the listed zone of that name, else the first listed zone of its region, else Shanghai for a
   * Chinese zone name, else UTC.
   */
  function UserTimezone(resolved: Option<string>, sorted: seq<Timezone>): string {
    match resolved
    case None => LastResort
    case Some(u) =>
      if HasValue(sorted, u) then u
      else
        match FirstWithPrefix(sorted, Region(u) + "/")
        case Some(z) => z.value
        case None => if Contains(u, "China") || u == ChinaFallback then ChinaFallback else LastResort
  }

  /** The chosen zone is one the list holds, or one of the two fallbacks. */
  lemma UserTimezoneListed(resolved: Option<string>, sorted: seq<Timezone>)
    ensures var r := UserTimezone(resolved, sorted);
      HasValue(sorted, r) || r == ChinaFallback || r == LastResort
  {
    if resolved.Some? && !HasValue(sorted, resolved.value) {
      var m := FirstWithPrefix(sorted, Region(resolved.value) + "/");
      if m.Some? {
        var k :| 0 <= k < |sorted| && sorted[k] == m.value;
        assert sorted[k].value == UserTimezone(resolved, sorted);
      }
    }
  }

  /** A listed zone is kept; otherwise a zone of the same region is preferred to the fallbacks. */
  lemma UserTimezonePreference(u: string, sorted: seq<Timezone>)
    ensures HasValue(sorted, u) ==> UserTimezone(Some(u), sorted) == u
    ensures !HasValue(sorted, u) && (exists k | 0 <= k < |sorted| :: StartsWith(sorted[k].value, Region(u) + "/"))
            ==> StartsWith(UserTimezone(Some(u), sorted), Region(u) + "/")
    ensures (forall k | 0 <= k < |sorted| :: sorted[k].value != u && !StartsWith(sorted[k].value, Region(u) + "/"))
            ==> UserTimezone(Some(u), sorted) == (if Contains(u, "China") || u == ChinaFallback then ChinaFallback else LastResort)
  {
  }

  // ---------------------------------------------------------------- the dropdown

  /** The `TimezoneSelect` component; a selection is handed to the page through `onValueChange`. */
  class TimezoneSelect {
    const zones: seq<Timezone>
    var isOpen: bool
    var searchTerm: string
    /** The values handed to `onValueChange`, in order. */
    var chosen: seq<string>

    constructor(zones: seq<Timezone>)
      ensures this.zones == zones && !isOpen && searchTerm == [] && chosen == []
    {
      this.zones := zones;
      isOpen, searchTerm, chosen := false, [], [];
    }

    function Filtered(): seq<Timezone>
      reads this
    {
      FilteredTimezones(zones, searchTerm)
    }

    /** `handleSelect`: report the value, close the list, forget the term. */
    method HandleSelect(v: string)
      modifies this
      ensures chosen == old(chosen) + [v] && !isOpen && searchTerm == []
    {
      chosen := chosen + [v];
      isOpen, searchTerm := false, [];
    }

    method HandleTriggerClick()
      modifies this
      ensures isOpen == !old(isOpen) && searchTerm == old(searchTerm) && chosen == old(chosen)
    {
      isOpen := !isOpen;
    }

    method HandleSearchChange(text: string)
      modifies this
      ensures searchTerm == text && isOpen == old(isOpen) && chosen == old(chosen)
    {
      searchTerm := text;
    }

    method ClearSearch()
      modifies this
      ensures searchTerm == [] && isOpen == old(isOpen) && chosen == old(chosen)
    {
      searchTerm := [];
    }

    /** A press outside the component closes it and forgets the term. */
    method HandleClickOutside()
      modifies this
      ensures !isOpen && searchTerm == [] && chosen == old(chosen)
    {
      isOpen, searchTerm := false, [];
    }

    /**
     * `handleSearchKeyDown`: Escape only closes; Enter picks the first entry still shown, and
     * does nothing when none is; any other key does nothing.
     */
    method HandleSearchKeyDown(key: string)
      modifies this
      ensures key == "Escape" ==> !isOpen && searchTerm == old(searchTerm) && chosen == old(chosen)
      ensures key == "Enter" && old(Filtered()) != [] ==>
                chosen == old(chosen) + [old(Filtered())[0].value] && !isOpen && searchTerm == []
      ensures key != "Escape" && (key != "Enter" || old(Filtered()) == []) ==>
                isOpen == old(isOpen) && searchTerm == old(searchTerm) && chosen == old(chosen)
    {
      if key == "Escape" {
        isOpen := false;
      } else if key == "Enter" && Filtered() != [] {
        HandleSelect(Filtered()[0].value);
      }
    }
  }

  /** What Enter picks is a listed zone that matches the term. */
  lemma EnterPicksMatch(zones: seq<Timezone>, searchTerm: string)
    requires FilteredTimezones(zones, searchTerm) != []
    ensures var z := FilteredTimezones(zones, searchTerm)[0];
      z in zones && (searchTerm == [] || Matches(z, ToLower(searchTerm)))
  {
    assert FilteredTimezones(zones, searchTerm)[0] in FilteredTimezones(zones, searchTerm);
  }
}
