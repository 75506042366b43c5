/** Listing the in-memory backend: a pass over the map in any order, common prefixes folded, then a sort. */
module Listings {
  import opened Common
  import opened Conditions
  import opened MockStorages

  datatype Entry = Entry(key: string, isPrefix: bool)

  /** `base` is the scheme and bucket, `prefix` the rest of what keys must start with; `delimiter` is set
      only for a listing that is not recursive. */
  datatype Query = Query(base: string, prefix: string, delimiter: Option<string>, maxKeys: Option<nat>)

  /** A parsed URI, and the options of a listing; `delimiter` counts only if the listing is not recursive. */
  datatype Location = Location(scheme: string, bucket: string, key: string)

  datatype ListOptions = ListOptions(
    prefix: Option<string>,
    delimiter: Option<string>,
    recursive: bool,
    maxKeys: Option<nat>)

  /** A key in the URI is taken for a directory, and the prefix asked for goes below it. */
  function QueryFor(at: Location, opts: ListOptions): Query {
    var directory := if at.key == "" || at.key[|at.key| - 1] == '/' then at.key else at.key + "/";
    Query(at.scheme + "://" + at.bucket + "/",
          directory + if opts.prefix.Some? then opts.prefix.value else "",
          if opts.recursive then None else opts.delimiter,
          opts.maxKeys)
  }

  /** Only objects of the bucket, and only those under the key itself as a directory, are listed. */
  lemma ListsBelowKey(at: Location, opts: ListOptions, uri: string)
    requires Matches(QueryFor(at, opts), uri) && at.key != "" && at.key[|at.key| - 1] != '/'
    ensures at.scheme + "://" + at.bucket + "/" + at.key + "/" <= uri
  {
    var q := QueryFor(at, opts);
    var below := at.scheme + "://" + at.bucket + "/" + at.key + "/";
    assert q.base + q.prefix == below + if opts.prefix.Some? then opts.prefix.value else "";
    assert below <= q.base + q.prefix;
  }

  /** What a listing of a location asks for: the URIs under the location's directory that go on with the prefix;
      the delimiter counts unless the listing is recursive. */
  lemma {:induction false} QueryMeans(at: Location, opts: ListOptions, uri: string)
    ensures var q := QueryFor(at, opts);
            var bucket := at.scheme + "://" + at.bucket + "/";
            var prefix := if opts.prefix.Some? then opts.prefix.value else "";
            && (at.key == "" ==> (Matches(q, uri) <==> bucket + prefix <= uri))
            && (at.key != "" && at.key[|at.key| - 1] == '/' ==> (Matches(q, uri) <==> bucket + at.key + prefix <= uri))
            && (at.key != "" && at.key[|at.key| - 1] != '/' ==>
                  (Matches(q, uri) <==> bucket + at.key + "/" + prefix <= uri))
            && (q.delimiter.Some? <==> !opts.recursive && opts.delimiter.Some?)
            && (q.delimiter.Some? ==> q.delimiter == opts.delimiter)
            && q.maxKeys == opts.maxKeys
  {
    var bucket := at.scheme + "://" + at.bucket + "/";
    var prefix := if opts.prefix.Some? then opts.prefix.value else "";
    assert bucket + ("" + prefix) == bucket + prefix;
    assert bucket + (at.key + prefix) == bucket + at.key + prefix;
    assert bucket + (at.key + "/" + prefix) == bucket + at.key + "/" + prefix;
  }

  // ----- strings -----

  /** Does `d` occur in `s` at place `i`? */
  predicate OccursAt(s: string, d: string, i: nat) {
    i + |d| <= |s| && s[i..i + |d|] == d
  }

  /** The first place at or after `from` where `d` occurs in `s`. */
  function IndexFrom(s: string, d: string, from: nat): (r: Option<nat>)
    ensures r.Some? ==> from <= r.value && OccursAt(s, d, r.value)
    ensures r.Some? ==> forall i :: from <= i < r.value ==> !OccursAt(s, d, i)
    ensures r.None? ==> forall i :: from <= i ==> !OccursAt(s, d, i)
    decreases |s| - from
  {
    if OccursAt(s, d, from) then Some(from) else if from < |s| then IndexFrom(s, d, from + 1) else None
  }

  /** The byte order of strings. */
  predicate Less(a: string, b: string) {
    b != "" && (a == "" || a[0] < b[0] || (a[0] == b[0] && Less(a[1..], b[1..])))
  }

  /** Where the strings first differ `a` has the smaller character. */
  predicate SmallerAt(a: string, b: string, i: nat) {
    i < |a| && i < |b| && a[..i] == b[..i] && a[i] < b[i]
  }

  lemma SmallerInTail(a: string, b: string, i: nat)
    requires a != "" && b != "" && a[0] == b[0]
    ensures SmallerAt(a, b, i + 1) <==> SmallerAt(a[1..], b[1..], i)
    ensures !SmallerAt(a, b, 0)
  {
    if i < |a| - 1 && i < |b| - 1 {
      assert a[..i + 1] == [a[0]] + a[1..][..i] && b[..i + 1] == [b[0]] + b[1..][..i];
      assert a[1..][..i] == a[..i + 1][1..] && b[1..][..i] == b[..i + 1][1..];
    }
  }

  lemma PrefixInTail(a: string, b: string)
    requires a != "" && b != "" && a[0] == b[0]
    ensures a < b <==> a[1..] < b[1..]
  {
    var a', b' := a[1..], b[1..];
    assert b' == b[1..] && (a < b ==> b[..|a|] == a && b'[..|a'|] == b[..|a|][1..]);
    assert a' < b' ==> b[..|a|] == [b[0]] + b'[..|a'|] && a == [a[0]] + a';
  }

  /** One string comes before another if it is a proper prefix of it, or has the smaller character where they first
      differ. */
  lemma {:induction false} LessMeans(a: string, b: string)
    ensures Less(a, b) <==> a < b || exists i: nat :: SmallerAt(a, b, i)
    decreases |a|
  {
    if a != "" && b != "" && a[0] == b[0] {
      LessMeans(a[1..], b[1..]);
      PrefixInTail(a, b);
      hide SmallerAt;
      if i: nat :| SmallerAt(a[1..], b[1..], i) {
        SmallerInTail(a, b, i);
      }
      if i: nat :| SmallerAt(a, b, i) {
        SmallerInTail(a, b, if i > 0 then i - 1 else 0);
      }
    } else if a != "" && b != "" {
      assert a[..0] == b[..0];
      assert a[0] < b[0] ==> SmallerAt(a, b, 0);
    }
  }

  lemma {:induction false} LessIsStrict(a: string, b: string)
    ensures !(Less(a, b) && Less(b, a)) && !Less(a, a)
    ensures a != b ==> Less(a, b) || Less(b, a)
    decreases |a|
  {
    if a != "" {
      LessIsStrict(a[1..], if b == "" then "" else b[1..]);
      if b != "" && a[0] == b[0] {
        assert a == [a[0]] + a[1..] && b == [b[0]] + b[1..];
      }
    }
  }

  lemma {:induction false} LessIsTransitive(a: string, b: string, c: string)
    requires Less(a, b) && Less(b, c)
    ensures Less(a, c)
  {
    if a != "" && a[0] == b[0] == c[0] {
      LessIsTransitive(a[1..], b[1..], c[1..]);
    }
  }

  // ----- what is listed -----

  predicate Matches(q: Query, uri: string) {
    q.base + q.prefix <= uri
  }

  /** The entry that stands for an object: its key, or the part of the key up to the first delimiter after
      the prefix. */
  function EntryOf(q: Query, uri: string): Entry
    requires Matches(q, uri)
  {
    var rest := Rest(q, uri);
    if q.delimiter.Some? && IndexFrom(rest, q.delimiter.value, 0).Some? then
      Entry(q.prefix + rest[..IndexFrom(rest, q.delimiter.value, 0).value + |q.delimiter.value|], true)
    else Entry(uri[|q.base|..], false)
  }

  /** The entry for a URI that goes on with `rest` after the prefix: the prefix and `rest` up to and including the
      first delimiter, or all of `rest` if no delimiter counts or none occurs in it. */
  lemma {:induction false} EntryMeans(q: Query, uri: string, rest: string)
    requires uri == q.base + q.prefix + rest
    ensures Matches(q, uri)
    ensures (q.delimiter.None? || forall i: nat :: !OccursAt(rest, q.delimiter.value, i)) ==>
              EntryOf(q, uri) == Entry(q.prefix + rest, false)
    ensures forall head: string, tail: string ::
              && q.delimiter.Some?
              && rest == head + q.delimiter.value + tail
              && (forall i: nat :: i < |head| ==> !OccursAt(rest, q.delimiter.value, i)) ==>
                EntryOf(q, uri) == Entry(q.prefix + head + q.delimiter.value, true)
  {
    assert uri[|q.base + q.prefix|..] == rest && Rest(q, uri) == rest;
    forall head: string, tail: string |
        && q.delimiter.Some?
        && rest == head + q.delimiter.value + tail
        && (forall i: nat :: i < |head| ==> !OccursAt(rest, q.delimiter.value, i))
      ensures EntryOf(q, uri) == Entry(q.prefix + head + q.delimiter.value, true)
    {
      assert OccursAt(rest, q.delimiter.value, |head|);
      assert IndexFrom(rest, q.delimiter.value, 0) == Some(|head|);
      assert q.prefix + rest[..|head| + |q.delimiter.value|] == q.prefix + head + q.delimiter.value;
    }
  }

  function Listed(q: Query, uris: set<string>): set<Entry> {
    set uri | uri in uris && Matches(q, uri) :: EntryOf(q, uri)
  }

  predicate Sorted(entries: seq<Entry>) {
    forall i, j :: 0 <= i < j < |entries| ==> Less(entries[i].key, entries[j].key)
  }

  /** An entry covers a key that is its own, or, if it is a prefix, that starts with it. */
  predicate Covers(e: Entry, key: string) {
    if e.isPrefix then e.key <= key else e.key == key
  }

  lemma OccursAlike(s: string, t: string, d: string, k: nat, n: nat)
    requires n <= |s| && n <= |t| && s[..n] == t[..n] && k + |d| <= n
    ensures OccursAt(s, d, k) == OccursAt(t, d, k)
  {
    assert s[k..k + |d|] == s[..n][k..k + |d|];
    assert t[k..k + |d|] == t[..n][k..k + |d|];
  }

  lemma FirstOccurrence(s: string, t: string, d: string, i: nat)
    requires IndexFrom(t, d, 0) == Some(i) && t[..i + |d|] <= s
    ensures IndexFrom(s, d, 0) == Some(i)
  {
    forall k: nat | k <= i ensures OccursAt(s, d, k) == OccursAt(t, d, k) {
      OccursAlike(s, t, d, k, i + |d|);
    }
  }

  /** The part of a matching URI after the base and the prefix. */
  function Rest(q: Query, uri: string): (rest: string)
    requires Matches(q, uri)
    ensures uri[|q.base|..] == q.prefix + rest
  {
    assert uri[..|q.base + q.prefix|] == q.base + q.prefix;
    assert uri[|q.base|..|q.base + q.prefix|] == (q.base + q.prefix)[|q.base|..] == q.prefix;
    uri[|q.base + q.prefix|..]
  }

  /** A folded entry that the key starts with is folded at the same place. */
  lemma FoldedAlike(prefix: string, rest: string, other: string, d: string)
    requires var i := IndexFrom(other, d, 0); i.Some? && prefix + other[..i.value + |d|] <= prefix + rest
    ensures var i := IndexFrom(other, d, 0);
            IndexFrom(rest, d, 0) == i && rest[..i.value + |d|] == other[..i.value + |d|]
  {
    var i := IndexFrom(other, d, 0).value;
    var head := other[..i + |d|];
    PrefixedAlike(prefix, head, rest);
    hide IndexFrom, OccursAt;
    FirstOccurrence(rest, other, d, i);
    assert rest[..|head|] == head;
  }

  lemma PrefixedAlike(prefix: string, head: string, rest: string)
    requires prefix + head <= prefix + rest
    ensures head <= rest
  {
    assert rest[..|head|] == (prefix + rest)[|prefix|..|prefix + head|] == (prefix + head)[|prefix|..] == head;
  }

  /** Of all the entries of a listing exactly one covers a matching object: the one that stands for it. */
  lemma CoveredOnce(q: Query, uris: set<string>, uri: string, e: Entry)
    requires uri in uris && Matches(q, uri) && e in Listed(q, uris)
    ensures Covers(e, uri[|q.base|..]) <==> e == EntryOf(q, uri)
  {
    var other :| other in uris && Matches(q, other) && e == EntryOf(q, other);
    var rest, rest' := Rest(q, uri), Rest(q, other);
    assert forall n :: 0 <= n <= |rest| ==> q.prefix + rest[..n] <= q.prefix + rest;
    if !e.isPrefix {
      assert rest == (q.prefix + rest)[|q.prefix|..] && rest' == (q.prefix + rest')[|q.prefix|..];
    } else if Covers(e, uri[|q.base|..]) {
      FoldedAlike(q.prefix, rest, rest', q.delimiter.value);
    }
  }

  /** Different objects' entries have different keys unless they are the same common prefix. */
  lemma KeysDistinct(q: Query, uris: set<string>, e: Entry, e': Entry)
    requires e in Listed(q, uris) && e' in Listed(q, uris) && e.key == e'.key
    ensures e == e'
  {
    var a :| a in uris && Matches(q, a) && e == EntryOf(q, a);
    if !e.isPrefix {
      CoveredOnce(q, uris, a, e');
      if e'.isPrefix {
        assert Covers(e', a[|q.base|..]);
      }
    } else if !e'.isPrefix {
      var b :| b in uris && Matches(q, b) && e' == EntryOf(q, b);
      CoveredOnce(q, uris, b, e);
      assert Covers(e, b[|q.base|..]);
    }
  }

  /** A sorted listing is determined by what is in it. */
  lemma {:induction false} SortedIsUnique(a: seq<Entry>, b: seq<Entry>)
    requires Sorted(a) && Sorted(b) && forall e :: e in a <==> e in b
    ensures a == b
  {
    if a != [] {
      assert a[0] in a;
    }
    if b != [] {
      assert b[0] in b;
    }
    if a != [] && b != [] {
      assert a[0] in b && b[0] in a;
      LessIsStrict(a[0].key, b[0].key);
      LessIsStrict(a[0].key, a[0].key);
      assert a[0] == b[0];
      forall e ensures e in a[1..] <==> e in b[1..] {
        assert e in a <==> e == a[0] || e in a[1..];
        assert e in b <==> e == b[0] || e in b[1..];
        if e == a[0] {
          assert e !in a[1..] && e !in b[1..];
        }
      }
      SortedIsUnique(a[1..], b[1..]);
      assert a == [a[0]] + a[1..] && b == [b[0]] + b[1..];
    }
  }

  // ----- the listing itself -----

  /** The entries that stand for matching objects, each once, sorted by key and cut off after maxKeys. */
  ghost predicate IsListing(q: Query, uris: set<string>, entries: seq<Entry>) {
    exists full :: IsFullListing(q, uris, full) && entries == Truncated(q, full)
  }

  ghost predicate IsFullListing(q: Query, uris: set<string>, entries: seq<Entry>) {
    Sorted(entries) && forall e :: e in entries <==> e in Listed(q, uris)
  }

  function Truncated(q: Query, entries: seq<Entry>): seq<Entry> {
    if q.maxKeys.Some? && |entries| > q.maxKeys.value then entries[..q.maxKeys.value] else entries
  }

  /** The listing is a function of the stored URIs and the query. */
  lemma ListingIsUnique(q: Query, uris: set<string>, a: seq<Entry>, b: seq<Entry>)
    requires IsListing(q, uris, a) && IsListing(q, uris, b)
    ensures a == b
  {
    var full :| IsFullListing(q, uris, full) && a == Truncated(q, full);
    var full' :| IsFullListing(q, uris, full') && b == Truncated(q, full');
    SortedIsUnique(full, full');
  }

  lemma {:induction false} SizeOfListing(a: seq<Entry>, members: set<Entry>)
    requires Sorted(a) && forall e :: e in a <==> e in members
    ensures |a| == |members|
    decreases |a|
  {
    if a == [] {
      assert members == {};
    } else {
      var front, last := a[..|a| - 1], a[|a| - 1];
      forall e ensures e in front <==> e in members - {last} {
        assert e in a <==> e in front || e == last;
        LessIsStrict(last.key, last.key);
      }
      SizeOfListing(front, members - {last});
    }
  }

  /** A listing has exactly one entry that covers a matching object, unless it is cut off: it is not if it is
      shorter than maxKeys, or if no more than maxKeys entries were to be listed. */
  lemma EveryObjectCoveredOnce(q: Query, uris: set<string>, entries: seq<Entry>, uri: string) returns (k: nat)
    requires IsListing(q, uris, entries)
    requires q.maxKeys.None? || |entries| < q.maxKeys.value || |Listed(q, uris)| <= q.maxKeys.value
    requires uri in uris && Matches(q, uri)
    ensures k < |entries| && entries[k] == EntryOf(q, uri)
    ensures forall i :: 0 <= i < |entries| ==> (Covers(entries[i], uri[|q.base|..]) <==> i == k)
  {
    var full :| IsFullListing(q, uris, full) && entries == Truncated(q, full);
    SizeOfListing(full, Listed(q, uris));
    assert EntryOf(q, uri) in Listed(q, uris);
    k :| 0 <= k < |entries| && entries[k] == EntryOf(q, uri);
    forall i | 0 <= i < |entries| ensures Covers(entries[i], uri[|q.base|..]) <==> i == k {
      assert entries[i] in entries;
      CoveredOnce(q, uris, uri, entries[i]);
      LessIsStrict(entries[k].key, entries[k].key);
    }
  }

  /** Every entry of a listing stands for a stored object that was asked for. */
  lemma EntriesAreStored(q: Query, uris: set<string>, entries: seq<Entry>, k: nat) returns (uri: string)
    requires IsListing(q, uris, entries) && k < |entries|
    ensures uri in uris && q.base + q.prefix <= uri && Matches(q, uri) && entries[k] == EntryOf(q, uri)
  {
    var full :| IsFullListing(q, uris, full) && entries == Truncated(q, full);
    assert full[k] in full;
    uri :| uri in uris && Matches(q, uri) && entries[k] == EntryOf(q, uri);
  }

  /** A listing has as many entries as there are, but no more than maxKeys, and those it leaves out come after all
      that it has. */
  lemma {:induction false} FirstOnesKept(q: Query, uris: set<string>, entries: seq<Entry>)
    requires IsListing(q, uris, entries)
    ensures |entries| == if q.maxKeys.Some? then Min(q.maxKeys.value, |Listed(q, uris)|) else |Listed(q, uris)|
    ensures forall e, k :: e in Listed(q, uris) && e !in entries && 0 <= k < |entries| ==> Less(entries[k].key, e.key)
  {
    var full :| IsFullListing(q, uris, full) && entries == Truncated(q, full);
    SizeOfListing(full, Listed(q, uris));
    assert forall m :: 0 <= m < |entries| ==> full[m] in entries;
    forall e, k | e in Listed(q, uris) && e !in entries && 0 <= k < |entries| ensures Less(entries[k].key, e.key) {
      var n :| 0 <= n < |full| && full[n] == e;
      assert n >= |entries|;
    }
  }

  lemma InsertedSorted(entries: seq<Entry>, e: Entry, i: nat)
    requires Sorted(entries) && i <= |entries|
    requires forall k :: 0 <= k < i ==> Less(entries[k].key, e.key)
    requires i < |entries| ==> Less(e.key, entries[i].key)
    ensures Sorted(entries[..i] + [e] + entries[i..])
  {
    forall k | i <= k < |entries| ensures Less(e.key, entries[k].key) {
      if k > i {
        LessIsTransitive(e.key, entries[i].key, entries[k].key);
      }
    }
    hide Less;
    var r := entries[..i] + [e] + entries[i..];
    forall j, k | 0 <= j < k < |r| ensures Less(r[j].key, r[k].key) {
      assert j < i ==> r[j] == entries[j];
      assert k < i ==> r[k] == entries[k];
      assert j > i ==> r[j] == entries[j - 1];
      assert k > i ==> r[k] == entries[k - 1];
    }
  }

  method InsertSorted(entries: seq<Entry>, e: Entry) returns (r: seq<Entry>)
    requires Sorted(entries) && forall x :: x in entries ==> x.key != e.key
    ensures Sorted(r) && forall x :: x in r <==> x in entries || x == e
  {
    hide Sorted;
    var i := 0;
    while i < |entries| && Less(entries[i].key, e.key)
      invariant i <= |entries| && forall k :: 0 <= k < i ==> Less(entries[k].key, e.key)
    {
      i := i + 1;
    }
    hide Less;
    if i < |entries| {
      assert entries[i] in entries;
      LessIsStrict(entries[i].key, e.key);
    }
    InsertedSorted(entries, e, i);
    r := entries[..i] + [e] + entries[i..];
    assert entries == entries[..i] + entries[i..];
  }

  /** Sort by key; no two entries share one. */
  method SortEntries(entries: seq<Entry>) returns (r: seq<Entry>)
    requires forall i, j :: 0 <= i < j < |entries| ==> entries[i].key != entries[j].key
    ensures Sorted(r) && forall x :: x in r <==> x in entries
  {
    r := [];
    for i := 0 to |entries|
      invariant Sorted(r) && forall x :: x in r <==> x in entries[..i]
    {
      assert forall x :: x in entries[..i] ==> x.key != entries[i].key;
      r := InsertSorted(r, entries[i]);
      assert entries[..i + 1] == entries[..i] + [entries[i]];
    }
    assert entries[..|entries|] == entries;
  }

  /** The walk over the map: entries of their own, and common prefixes collected in a set. */
  method Collect(objects: Objects, q: Query) returns (entries: seq<Entry>, commonPrefixes: set<string>)
    ensures forall e :: e in Listed(q, objects.Keys) <==> e in entries || (e.isPrefix && e.key in commonPrefixes)
    ensures forall i :: 0 <= i < |entries| ==> !entries[i].isPrefix
    ensures forall i, j :: 0 <= i < j < |entries| ==> entries[i].key != entries[j].key
  {
    entries, commonPrefixes := [], {};
    var left := objects.Keys;
    ghost var uris := objects.Keys;
    while left != {}
      invariant left <= uris
      invariant forall e :: e in Listed(q, uris - left) <==> e in entries || (e.isPrefix && e.key in commonPrefixes)
      invariant forall i :: 0 <= i < |entries| ==> !entries[i].isPrefix
      invariant forall i, j :: 0 <= i < j < |entries| ==> entries[i].key != entries[j].key
      decreases left
    {
      var uri :| uri in left;
      ghost var done := uris - left;
      left := left - {uri};
      assert uris - left == done + {uri};
      ListedGrows(q, done, uri);
      if q.base + q.prefix <= uri {
        var key, rest := uri[|q.base|..], uri[|q.base + q.prefix|..];
        if q.delimiter.Some? && IndexFrom(rest, q.delimiter.value, 0).Some? {
          var i := IndexFrom(rest, q.delimiter.value, 0).value;
          commonPrefixes := commonPrefixes + {q.prefix + rest[..i + |q.delimiter.value|]};
        } else {
          forall i | 0 <= i < |entries| ensures entries[i].key != key {
            assert entries[i] in Listed(q, done);
            KeyIsOwn(q, done, uri, entries[i]);
          }
          entries := entries + [Entry(key, false)];
        }
      }
    }
    assert uris - left == uris;
  }

  /** Whatever order the map is walked in, the listing is the same. */
  method ListObjects(objects: Objects, q: Query) returns (entries: seq<Entry>)
    ensures IsListing(q, objects.Keys, entries)
  {
    var commonPrefixes;
    entries, commonPrefixes := Collect(objects, q);
    ghost var plain, prefixes := entries, commonPrefixes;
    while commonPrefixes != {}
      invariant commonPrefixes <= prefixes
      invariant forall e :: e in entries <==>
                  e in plain || (e.isPrefix && e.key in prefixes && e.key !in commonPrefixes)
      invariant forall i, j :: 0 <= i < j < |entries| ==> entries[i].key != entries[j].key
      decreases commonPrefixes
    {
      var p :| p in commonPrefixes;
      commonPrefixes := commonPrefixes - {p};
      forall i | 0 <= i < |entries| ensures entries[i].key != p {
        if entries[i].key == p {
          assert entries[i] in entries;
          KeysDistinct(q, objects.Keys, entries[i], Entry(p, true));
        }
      }
      entries := entries + [Entry(p, true)];
    }
    entries := SortEntries(entries);
    assert IsFullListing(q, objects.Keys, entries);
    if q.maxKeys.Some? && |entries| > q.maxKeys.value {
      entries := entries[..q.maxKeys.value];
    }
  }

  /** `parsed` is the URI's parse, if it has one. */
  method List(storage: MockStorage, uri: string, parsed: Option<Location>, opts: ListOptions)
    returns (r: Result<seq<Entry>>)
    modifies storage`fault
    ensures if Hits(old(storage.fault), uri) then r == Err(old(storage.fault).value.error) && storage.fault.None?
            else
              && storage.fault == old(storage.fault)
              && match parsed
                 case None => r == Err(Error(InvalidURI, false))
                 case Some(at) => r.Ok? && IsListing(QueryFor(at, opts), storage.objects.Keys, r.value)
  {
    var armed := storage.CheckFailNext(uri);
    if armed.Some? {
      return Err(armed.value);
    }
    if parsed.None? {
      return Err(Error(InvalidURI, false));
    }
    var at := parsed.value;
    var base := at.scheme + "://" + at.bucket + "/";
    var prefix := "";
    if at.key != "" {
      prefix := at.key;
      if prefix[|prefix| - 1] != '/' {
        prefix := prefix + "/";
      }
    }
    if opts.prefix.Some? {
      prefix := prefix + opts.prefix.value;
    }
    var delimiter := None;
    if !opts.recursive && opts.delimiter.Some? {
      delimiter := opts.delimiter;
    }
    var q := Query(base, prefix, delimiter, opts.maxKeys);
    assert q.prefix == QueryFor(at, opts).prefix;
    var entries := ListObjects(storage.objects, q);
    return Ok(entries);
  }

  lemma ListedGrows(q: Query, uris: set<string>, uri: string)
    ensures Listed(q, uris + {uri}) == Listed(q, uris) + if Matches(q, uri) then {EntryOf(q, uri)} else {}
  {
  }

  /** Two objects have the same entry of their own only if they are the same object. */
  lemma KeyIsOwn(q: Query, uris: set<string>, uri: string, e: Entry)
    requires uri !in uris && Matches(q, uri) && e in Listed(q, uris) && !e.isPrefix
    ensures e.key != uri[|q.base|..]
  {
    var other :| other in uris && Matches(q, other) && e == EntryOf(q, other);
    assert other == other[..|q.base|] + other[|q.base|..] && uri == uri[..|q.base|] + uri[|q.base|..];
    assert other[..|q.base|] == q.base by { assert other[..|q.base + q.prefix|] == q.base + q.prefix; }
    assert uri[..|q.base|] == q.base by { assert uri[..|q.base + q.prefix|] == q.base + q.prefix; }
  }
}
