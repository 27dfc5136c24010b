/**
 * What a persistence engine does with a fetch: keep the rows a predicate
 * accepts, order them by the sort descriptors, and cut the list at the
 * fetch limit. Core Data's `NSFetchRequest` is an object the callers
 * configure field by field; SwiftData's `FetchDescriptor` is a value. Both
 * run through `Run`. Rows are seen through a `field` function that gives
 * the value of a named attribute.
 */
module FetchRequests {
  import opened Primitives

  /** The value of one named attribute of a row. */
  datatype FieldValue = Text(text: string) | Flag(flag: bool) | Stamp(stamp: Option<Date>) | Number(number: int) | Other

  /** The predicates the storage layer builds: `key == %@`, `key == YES`, or none at all. */
  datatype Predicate = MatchAll | TextEquals(key: string, text: string) | FlagIsTrue(key: string)

  datatype SortDescriptor = SortDescriptor(key: string, ascending: bool)

  /** Position of a row in an ordering; a missing value sorts before every present one, as SQLite's NULL does. */
  datatype SortKey = Missing | At(t: int)

  predicate KeyLE(a: SortKey, b: SortKey) {
    a.Missing? || (b.At? && a.t <= b.t)
  }

  predicate InOrder(a: SortKey, b: SortKey, ascending: bool) {
    if ascending then KeyLE(a, b) else KeyLE(b, a)
  }

  function KeyOf(v: FieldValue): SortKey {
    match v
    case Stamp(Some(t)) => At(t)
    case Number(n) => At(n)
    case _ => Missing
  }

  predicate Holds<T(!new)>(p: Predicate, field: (T, string) -> FieldValue, x: T) {
    match p
    case MatchAll => true
    case TextEquals(k, s) => field(x, k) == Text(s)
    case FlagIsTrue(k) => field(x, k) == Flag(true)
  }

  predicate SortedBy<T(!new)>(s: seq<T>, key: T -> SortKey, ascending: bool) {
    forall i, j :: 0 <= i < j < |s| ==> InOrder(key(s[i]), key(s[j]), ascending)
  }

  /** A sorted sequence stays sorted when an element that may precede all of it is put in front. */
  lemma SortedCons<T(!new)>(h: T, t: seq<T>, key: T -> SortKey, ascending: bool)
    requires SortedBy(t, key, ascending)
    requires forall y :: y in t ==> InOrder(key(h), key(y), ascending)
    ensures SortedBy([h] + t, key, ascending)
  {
    var r := [h] + t;
    forall i, j | 0 <= i < j < |r| ensures InOrder(key(r[i]), key(r[j]), ascending) {
      assert r[j] == t[j - 1];
      if i > 0 {
        assert r[i] == t[i - 1];
      }
    }
  }

  /** The head of a sorted sequence may precede every element of it. */
  lemma HeadPrecedes<T(!new)>(s: seq<T>, key: T -> SortKey, ascending: bool)
    requires s != [] && SortedBy(s, key, ascending)
    ensures forall y :: y in s ==> InOrder(key(s[0]), key(y), ascending)
  {
  }

  /** Whatever may precede the head of a sorted sequence may precede all of it. */
  lemma PrecedesAll<T(!new)>(x: T, s: seq<T>, key: T -> SortKey, ascending: bool)
    requires SortedBy(s, key, ascending)
    requires s == [] || InOrder(key(x), key(s[0]), ascending)
    ensures forall y :: y in s ==> InOrder(key(x), key(y), ascending)
  {
    if s != [] {
      HeadPrecedes(s, key, ascending);
    }
  }

  /** Inserts `x` before the first element it may precede. */
  function Insert<T(!new)>(x: T, s: seq<T>, key: T -> SortKey, ascending: bool): (r: seq<T>)
    requires SortedBy(s, key, ascending)
    ensures multiset(r) == multiset(s) + multiset{x}
    ensures SortedBy(r, key, ascending)
  {
    if s == [] || InOrder(key(x), key(s[0]), ascending) then
      PrecedesAll(x, s, key, ascending);
      SortedCons(x, s, key, ascending);
      [x] + s
    else
      var rest := Insert(x, s[1..], key, ascending);
      assert s == [s[0]] + s[1..];
      HeadPrecedes(s, key, ascending);
      assert forall y :: y in rest ==> y == x || y in s by {
        forall y | y in rest ensures y == x || y in s {
          assert y in multiset(rest);
        }
      }
      SortedCons(s[0], rest, key, ascending);
      [s[0]] + rest
  }

  /** An ordering of `s` by `key` (insertion sort). */
  function SortBy<T(!new)>(s: seq<T>, key: T -> SortKey, ascending: bool): (r: seq<T>)
    ensures multiset(r) == multiset(s)
    ensures SortedBy(r, key, ascending)
  {
    if s == [] then []
    else
      assert s == [s[0]] + s[1..];
      Insert(s[0], SortBy(s[1..], key, ascending), key, ascending)
  }

  /** The ordering one descriptor asks for. */
  function DescriptorKey<T(!new)>(field: (T, string) -> FieldValue, d: SortDescriptor): T -> SortKey {
    x => KeyOf(field(x, d.key))
  }

  /** Sorting by the descriptors from last to first, so the first descriptor decides the final order. */
  function SortByAll<T(!new)>(s: seq<T>, descriptors: seq<SortDescriptor>, field: (T, string) -> FieldValue): (r: seq<T>)
    ensures multiset(r) == multiset(s)
    ensures descriptors != [] ==> SortedBy(r, DescriptorKey(field, descriptors[0]), descriptors[0].ascending)
  {
    if descriptors == [] then s
    else SortBy(SortByAll(s, descriptors[1..], field), DescriptorKey(field, descriptors[0]), descriptors[0].ascending)
  }

  /** The elements of `s` that `keep` accepts, in their order. */
  function Filter<T(!new)>(s: seq<T>, keep: T -> bool): (r: seq<T>)
    ensures forall x :: multiset(r)[x] == if keep(x) then multiset(s)[x] else 0
    ensures forall x :: x in r <==> x in s && keep(x)
  {
    if s == [] then []
    else
      assert s == [s[0]] + s[1..];
      (if keep(s[0]) then [s[0]] else []) + Filter(s[1..], keep)
  }

  /** The first `limit` elements; a limit of 0 means no limit. */
  function Limit<T(!new)>(s: seq<T>, limit: nat): (r: seq<T>)
    ensures |r| == if limit == 0 || |s| <= limit then |s| else limit
    ensures multiset(r) <= multiset(s)
    ensures forall i :: 0 <= i < |r| ==> r[i] == s[i]
    ensures limit == 0 ==> r == s
  {
    if limit == 0 || |s| <= limit then s
    else
      assert s == s[..limit] + s[limit..];
      s[..limit]
  }

  /**
   * Executes a fetch over the rows the engine holds: the accepted rows,
   * ordered by the first sort descriptor, at most `fetchLimit` of them.
   */
  function Run<T(!new)>(filter: Predicate, sortDescriptors: seq<SortDescriptor>, fetchLimit: nat,
                  rows: seq<T>, field: (T, string) -> FieldValue): (r: seq<T>)
    ensures var accepted := Filter(rows, x => Holds(filter, field, x));
      && multiset(r) <= multiset(accepted)
      && (fetchLimit == 0 ==> multiset(r) == multiset(accepted))
      && |r| == (if fetchLimit == 0 || |accepted| <= fetchLimit then |accepted| else fetchLimit)
    ensures forall x :: x in r ==> x in rows && Holds(filter, field, x)
    ensures sortDescriptors != [] ==>
      SortedBy(r, DescriptorKey(field, sortDescriptors[0]), sortDescriptors[0].ascending)
  {
    var accepted := Filter(rows, x => Holds(filter, field, x));
    var sorted := SortByAll(accepted, sortDescriptors, field);
    var r := Limit(sorted, fetchLimit);
    assert |sorted| == |accepted| by {
      assert |multiset(sorted)| == |multiset(accepted)|;
    }
    forall x | x in r ensures x in rows && Holds(filter, field, x) {
      assert x in multiset(r);
      assert x in multiset(sorted);
      assert x in accepted;
    }
    r
  }

  /** A Core Data fetch request, configured field by field after creation. */
  class FetchRequest {
    var entityName: string
    /** The request's `predicate`. */
    var filter: Predicate
    var sortDescriptors: seq<SortDescriptor>
    /** 0 means no limit. */
    var fetchLimit: nat

    /** `NSFetchRequest(entityName:)`: no predicate, no ordering, no limit. */
    constructor (entityName: string)
      ensures this.entityName == entityName
      ensures filter == MatchAll && sortDescriptors == [] && fetchLimit == 0
    {
      this.entityName := entityName;
      filter := MatchAll;
      sortDescriptors := [];
      fetchLimit := 0;
    }
  }

  /** `context.fetch(request)` over the rows of the request's entity. */
  function Execute<T(!new)>(request: FetchRequest, rows: seq<T>, field: (T, string) -> FieldValue): seq<T>
    reads request
  {
    Run(request.filter, request.sortDescriptors, request.fetchLimit, rows, field)
  }

  /** A SwiftData fetch descriptor. */
  datatype FetchDescriptor = FetchDescriptor(filter: Predicate := MatchAll, sortBy: seq<SortDescriptor> := [])

  /** `modelContext.fetch(descriptor)`. */
  function FetchAll<T(!new)>(descriptor: FetchDescriptor, rows: seq<T>, field: (T, string) -> FieldValue): seq<T> {
    Run(descriptor.filter, descriptor.sortBy, 0, rows, field)
  }

  /** A sequence whose elements are pairwise distinct has each element at most once. */
  lemma {:induction false} DistinctCounts<T(!new)>(s: seq<T>)
    ensures Distinct(s) <==> forall x :: multiset(s)[x] <= 1
  {
    if s == [] {
    } else {
      DistinctCounts(s[1..]);
      assert s == [s[0]] + s[1..];
      if Distinct(s) {
        assert Distinct(s[1..]) by {
          forall i, j | 0 <= i < j < |s[1..]| ensures s[1..][i] != s[1..][j] {
            assert s[1..][i] == s[i + 1] && s[1..][j] == s[j + 1];
          }
        }
        assert s[0] !in s[1..];
      } else if forall x :: multiset(s)[x] <= 1 {
        assert multiset(s)[s[0]] == 1 + multiset(s[1..])[s[0]];
        assert s[0] !in s[1..];
        assert forall x :: multiset(s[1..])[x] <= multiset(s)[x];
        forall i, j | 0 <= i < j < |s| ensures s[i] != s[j] {
          if i == 0 {
            assert s[j] == s[1..][j - 1];
          } else {
            assert s[i] == s[1..][i - 1] && s[j] == s[1..][j - 1];
          }
        }
        assert false;
      }
    }
  }

  /** A sub-multiset of a sequence without repetitions has none either. */
  lemma DistinctSubMultiset<T(!new)>(s: seq<T>, r: seq<T>)
    requires multiset(r) <= multiset(s) && Distinct(s)
    ensures Distinct(r)
  {
    DistinctCounts(s);
    DistinctCounts(r);
    assert forall x :: multiset(r)[x] <= multiset(s)[x];
  }

  /** Without a limit, a fetch returns exactly the rows its predicate accepts. */
  lemma RunSelects<T(!new)>(filter: Predicate, sortDescriptors: seq<SortDescriptor>, rows: seq<T>,
                            field: (T, string) -> FieldValue)
    ensures var r := Run(filter, sortDescriptors, 0, rows, field);
      forall x :: x in r <==> x in rows && Holds(filter, field, x)
  {
    var r := Run(filter, sortDescriptors, 0, rows, field);
    var accepted := Filter(rows, x => Holds(filter, field, x));
    forall x | x in rows && Holds(filter, field, x) ensures x in r {
      assert x in accepted;
      assert x in multiset(accepted);
    }
  }

  /** With no predicate and no limit, a fetch returns every row, as often as it is held. */
  lemma RunAll<T(!new)>(sortDescriptors: seq<SortDescriptor>, rows: seq<T>, field: (T, string) -> FieldValue)
    ensures multiset(Run(MatchAll, sortDescriptors, 0, rows, field)) == multiset(rows)
  {
    var accepted := Filter(rows, x => Holds(MatchAll, field, x));
    assert forall x :: multiset(accepted)[x] == multiset(rows)[x];
    assert multiset(accepted) == multiset(rows);
  }

  /** A fetch returns rows the engine holds, each no more often than it is held. */
  lemma RunWithinRows<T(!new)>(filter: Predicate, sortDescriptors: seq<SortDescriptor>, fetchLimit: nat,
                               rows: seq<T>, field: (T, string) -> FieldValue)
    ensures multiset(Run(filter, sortDescriptors, fetchLimit, rows, field)) <= multiset(rows)
  {
    var accepted := Filter(rows, x => Holds(filter, field, x));
    assert forall x :: multiset(accepted)[x] <= multiset(rows)[x];
  }

  /** With a limit, a fetch comes back empty exactly when no row is accepted. */
  lemma RunFirst<T(!new)>(filter: Predicate, sortDescriptors: seq<SortDescriptor>, fetchLimit: nat,
                          rows: seq<T>, field: (T, string) -> FieldValue)
    requires fetchLimit > 0
    ensures var r := Run(filter, sortDescriptors, fetchLimit, rows, field);
      |r| <= fetchLimit && (r == [] <==> forall x :: x in rows ==> !Holds(filter, field, x))
  {
    var accepted := Filter(rows, x => Holds(filter, field, x));
    if x :| x in rows && Holds(filter, field, x) {
      assert x in accepted;
    }
  }

  /** Sortedness depends only on the keys of the elements. */
  lemma SortedBySameKeys<T(!new)>(s: seq<T>, key1: T -> SortKey, key2: T -> SortKey, ascending: bool)
    requires SortedBy(s, key1, ascending)
    requires forall i :: 0 <= i < |s| ==> key1(s[i]) == key2(s[i])
    ensures SortedBy(s, key2, ascending)
  {
  }
}
