/**
 * Record selection of `src/data.js`: the per-record `getPos` lookup, the every-tenth
 * `ELITE_DATA_LITE` subsample and `getFilteredElites`.
 */
module EliteData {
  import opened Wrappers
  import opened Numeric

  /** One entry of a record's `year_location` list. */
  datatype YearLocation = YearLocation(year: int, x: real, y: real)

  /** One record of `ELITE_DATA`; `eliteType` is the record's `type` field. */
  datatype Elite = Elite(birthYear: int, deathYear: int, eliteType: string, yearLocation: seq<YearLocation>)

  //---------------------------------------------------------------------------
  // Order-preserving subsequences
  //---------------------------------------------------------------------------

  /** `a` is obtained from `b` by deleting elements, keeping the order of the rest. */
  predicate IsSubsequence<T(==)>(a: seq<T>, b: seq<T>)
    decreases |b|
  {
    |a| == 0 || (|b| > 0 && ((a[0] == b[0] && IsSubsequence(a[1..], b[1..])) || IsSubsequence(a, b[1..])))
  }

  lemma {:induction false} SubsequenceReflexive<T>(s: seq<T>)
    ensures IsSubsequence(s, s)
    decreases |s|
  {
    if |s| > 0 {
      SubsequenceReflexive(s[1..]);
    }
  }

  lemma {:induction false} SubsequenceLength<T>(a: seq<T>, b: seq<T>)
    requires IsSubsequence(a, b)
    ensures |a| <= |b|
    decreases |b|
  {
    if |a| > 0 {
      if a[0] == b[0] && IsSubsequence(a[1..], b[1..]) {
        SubsequenceLength(a[1..], b[1..]);
      } else {
        SubsequenceLength(a, b[1..]);
      }
    }
  }

  lemma {:induction false} SubsequenceElements<T>(a: seq<T>, b: seq<T>)
    requires IsSubsequence(a, b)
    ensures forall x :: x in a ==> x in b
    decreases |b|
  {
    if |a| > 0 {
      if a[0] == b[0] && IsSubsequence(a[1..], b[1..]) {
        SubsequenceElements(a[1..], b[1..]);
        assert forall x :: x in a ==> x == a[0] || x in a[1..];
      } else {
        SubsequenceElements(a, b[1..]);
      }
    }
  }

  lemma {:induction false} SubsequenceTransitive<T>(a: seq<T>, b: seq<T>, c: seq<T>)
    requires IsSubsequence(a, b) && IsSubsequence(b, c)
    ensures IsSubsequence(a, c)
    decreases |c|
  {
    if |a| > 0 {
      if b[0] == c[0] && IsSubsequence(b[1..], c[1..]) {
        if a[0] == b[0] && IsSubsequence(a[1..], b[1..]) {
          SubsequenceTransitive(a[1..], b[1..], c[1..]);
        } else {
          SubsequenceTransitive(a, b[1..], c[1..]);
        }
      } else {
        SubsequenceTransitive(a, b, c[1..]);
      }
    }
  }

  //---------------------------------------------------------------------------
  // Array.prototype.filter
  //---------------------------------------------------------------------------

  /**
   * `s.filter(p)`: the elements satisfying `p`, in order. The multiset clause says that
   * each value kept occurs exactly as often as in `s`, and values not satisfying `p` not at all.
   */
  function Filter<T(!new)>(s: seq<T>, p: T -> bool): (r: seq<T>)
    ensures IsSubsequence(r, s)
    ensures forall x :: x in r ==> p(x)
    ensures forall x :: multiset(r)[x] == if p(x) then multiset(s)[x] else 0
  {
    if |s| == 0 then []
    else
      var rest := Filter(s[1..], p);
      assert s == [s[0]] + s[1..];
      if p(s[0]) then [s[0]] + rest else rest
  }

  //---------------------------------------------------------------------------
  // ELITE_DATA_LITE = ELITE_DATA.filter((d, i) => !(i % 10))
  //---------------------------------------------------------------------------

  /** The index filter from position `i` on: keep `s[k]` when `k % 10 == 0`. */
  function EveryTenthFrom<T>(s: seq<T>, i: nat): seq<T>
    decreases |s| - i
  {
    if i >= |s| then []
    else (if i % 10 == 0 then [s[i]] else []) + EveryTenthFrom(s, i + 1)
  }

  /** From position `i` on, one element is kept per multiple of 10 in `[i, |s|)`. */
  lemma {:induction false} EveryTenthFromLength<T>(s: seq<T>, i: nat)
    requires i <= |s|
    ensures |EveryTenthFrom(s, i)| == (|s| + 9) / 10 - (i + 9) / 10
    decreases |s| - i
  {
    if i < |s| {
      EveryTenthFromLength(s, i + 1);
      var rest := EveryTenthFrom(s, i + 1);
      if i % 10 == 0 {
        assert (i + 10) / 10 == (i + 9) / 10 + 1;
        assert EveryTenthFrom(s, i) == [s[i]] + rest;
      } else {
        assert (i + 10) / 10 == (i + 9) / 10;
        assert EveryTenthFrom(s, i) == rest;
      }
    }
  }

  /** The input position of element `m` kept from position `i` on: the `m`-th multiple of 10 from `i`. */
  function KeptIndex(i: nat, m: nat): nat
  {
    10 * ((i + 9) / 10 + m)
  }

  /** Element `m` kept from position `i` on is the input at the `m`-th multiple of 10 from `i`. */
  lemma EveryTenthFromElements<T>(s: seq<T>, i: nat)
    requires i <= |s|
    ensures forall m :: 0 <= m < |EveryTenthFrom(s, i)| ==>
      KeptIndex(i, m) < |s| && EveryTenthFrom(s, i)[m] == s[KeptIndex(i, m)]
  {
    forall m | 0 <= m < |EveryTenthFrom(s, i)|
      ensures KeptIndex(i, m) < |s| && EveryTenthFrom(s, i)[m] == s[KeptIndex(i, m)]
    {
      EveryTenthFromAt(s, i, m);
    }
  }

  /** One element of what is kept from position `i` on, by induction on `|s| - i`. */
  lemma {:induction false} EveryTenthFromAt<T>(s: seq<T>, i: nat, m: nat)
    requires i <= |s| && m < |EveryTenthFrom(s, i)|
    ensures KeptIndex(i, m) < |s| && EveryTenthFrom(s, i)[m] == s[KeptIndex(i, m)]
    decreases |s| - i
  {
    var rest := EveryTenthFrom(s, i + 1);
    var base := (i + 9) / 10;
    if i % 10 == 0 {
      assert EveryTenthFrom(s, i) == [s[i]] + rest;
      assert 10 * base == i;
      if m > 0 {
        EveryTenthFromAt(s, i + 1, m - 1);
        assert (i + 1 + 9) / 10 + (m - 1) == base + m;
      }
    } else {
      assert EveryTenthFrom(s, i) == rest;
      EveryTenthFromAt(s, i + 1, m);
      assert (i + 1 + 9) / 10 == base;
    }
  }

  /** What is kept from position `i` on is a subsequence of `s[i..]`. */
  lemma {:induction false} EveryTenthFromSubsequence<T>(s: seq<T>, i: nat)
    requires i <= |s|
    ensures IsSubsequence(EveryTenthFrom(s, i), s[i..])
    decreases |s| - i
  {
    if i < |s| {
      EveryTenthFromSubsequence(s, i + 1);
      var rest := EveryTenthFrom(s, i + 1);
      assert s[i..][1..] == s[i + 1..];
      if i % 10 != 0 {
        assert EveryTenthFrom(s, i) == rest;
        assert |rest| > 0 ==> IsSubsequence(rest, s[i..][1..]);
      }
    }
  }

  /**
   * `ELITE_DATA_LITE`: exactly the records whose index is divisible by 10, in order;
   * `ceil(n / 10)` of them.
   */
  function Lite<T>(s: seq<T>): (r: seq<T>)
    ensures |r| == (|s| + 9) / 10
    ensures forall m :: 0 <= m < |r| ==> 10 * m < |s| && r[m] == s[10 * m]
    ensures IsSubsequence(r, s)
  {
    EveryTenthFromLength(s, 0);
    EveryTenthFromElements(s, 0);
    EveryTenthFromSubsequence(s, 0);
    assert s[0..] == s;
    EveryTenthFrom(s, 0)
  }

  //---------------------------------------------------------------------------
  // getFilteredElites({type, year, useLiteData})
  //---------------------------------------------------------------------------

  /** JavaScript truthiness of `year`: `undefined` and `0` are falsy. */
  predicate YearGiven(year: Option<int>)
  {
    year.Some? && year.value != 0
  }

  /** JavaScript truthiness of `type`: `undefined` and `""` are falsy. */
  predicate TypeGiven(eliteType: Option<string>)
  {
    eliteType.Some? && eliteType.value != ""
  }

  /** `d.birth_year <= year && year < d.death_year`. */
  predicate AliveIn(d: Elite, year: int)
  {
    d.birthYear <= year && year < d.deathYear
  }

  /** `sub` occurs in `s` starting at index `i`. */
  predicate OccursAt(s: string, sub: string, i: nat)
  {
    i + |sub| <= |s| && s[i..i + |sub|] == sub
  }

  /** `s.includes(sub)` on strings: `sub` occurs in `s` at some position. */
  predicate Includes(s: string, sub: string)
  {
    exists i: nat | i <= |s| :: OccursAt(s, sub, i)
  }

  /** Every string includes itself. */
  lemma IncludesItself(s: string)
    ensures Includes(s, s)
  {
    assert s[0..|s|] == s;
    assert OccursAt(s, s, 0);
  }

  /** `d.type.includes(type)`. */
  predicate HasType(d: Elite, eliteType: string)
  {
    Includes(d.eliteType, eliteType)
  }

  /** The list the filters start from: `useLiteData ? ELITE_DATA_LITE : ELITE_DATA`. */
  function StartList(eliteData: seq<Elite>, useLiteData: bool): (list: seq<Elite>)
    ensures IsSubsequence(list, eliteData)
    ensures useLiteData ==> list == Lite(eliteData)
    ensures !useLiteData ==> list == eliteData
  {
    if useLiteData then Lite(eliteData)
    else SubsequenceReflexive(eliteData); eliteData
  }

  /** Whether a record passes the filters that the given arguments switch on. */
  predicate Kept(d: Elite, eliteType: Option<string>, year: Option<int>)
  {
    (YearGiven(year) ==> AliveIn(d, year.value)) && (TypeGiven(eliteType) ==> HasType(d, eliteType.value))
  }

  /** `getFilteredElites`: the year filter when `year` is truthy, then the type filter when `type` is. */
  function GetFilteredElites(eliteData: seq<Elite>, eliteType: Option<string>, year: Option<int>, useLiteData: bool): (list: seq<Elite>)
    ensures IsSubsequence(list, StartList(eliteData, useLiteData))
    ensures IsSubsequence(list, eliteData)
    ensures forall d :: multiset(list)[d] == if Kept(d, eliteType, year) then multiset(StartList(eliteData, useLiteData))[d] else 0
  {
    var start := StartList(eliteData, useLiteData);
    var byYear := if YearGiven(year) then Filter(start, d => AliveIn(d, year.value)) else start;
    var list := if TypeGiven(eliteType) then Filter(byYear, d => HasType(d, eliteType.value)) else byYear;
    SubsequenceReflexive(start);
    SubsequenceReflexive(byYear);
    SubsequenceTransitive(list, byYear, start);
    SubsequenceReflexive(eliteData);
    SubsequenceTransitive(list, start, eliteData);
    list
  }

  /** With falsy `type` and `year` the starting list is returned as it is. */
  lemma FalsyFiltersKeepAll(eliteData: seq<Elite>, eliteType: Option<string>, year: Option<int>, useLiteData: bool)
    requires !TypeGiven(eliteType) && !YearGiven(year)
    ensures GetFilteredElites(eliteData, eliteType, year, useLiteData) == StartList(eliteData, useLiteData)
  {
  }

  /** Any `type` on top of the same `year` and data choice keeps a subsequence of the list without one. */
  lemma TypeFilterNarrows(eliteData: seq<Elite>, eliteType: Option<string>, year: Option<int>, useLiteData: bool)
    ensures IsSubsequence(GetFilteredElites(eliteData, eliteType, year, useLiteData),
                          GetFilteredElites(eliteData, None, year, useLiteData))
    ensures |GetFilteredElites(eliteData, eliteType, year, useLiteData)|
         <= |GetFilteredElites(eliteData, None, year, useLiteData)|
  {
    var all := GetFilteredElites(eliteData, None, year, useLiteData);
    var selected := GetFilteredElites(eliteData, eliteType, year, useLiteData);
    if !TypeGiven(eliteType) {
      SubsequenceReflexive(all);
    }
    SubsequenceLength(selected, all);
  }

  //---------------------------------------------------------------------------
  // getPos(year)
  //---------------------------------------------------------------------------

  /** `[year_xy.x, year_xy.y]`. */
  function Position(l: YearLocation): Vec2
  {
    Vec2(l.x, l.y)
  }

  /** The index of the first entry whose year is at least `year`, or `|locs|` if there is none. */
  function FirstAtOrAfter(locs: seq<YearLocation>, year: int): (k: nat)
    ensures k <= |locs|
    ensures forall m :: 0 <= m < k ==> locs[m].year < year
    ensures k < |locs| ==> year <= locs[k].year
    decreases |locs|
  {
    if |locs| == 0 then 0
    else if year <= locs[0].year then 0
    else 1 + FirstAtOrAfter(locs[1..], year)
  }

  /**
   * What `getPos(year)` returns: the position of the first entry with `year <= entry.year`,
   * else that of entry 0; `None` where an empty list makes `year_location[0].x` throw.
   */
  function PosAt(locs: seq<YearLocation>, year: int): (p: Option<Vec2>)
    ensures p.Some? <==> |locs| > 0
    ensures p.Some? ==> exists k :: 0 <= k < |locs| && p.value == Position(locs[k])
  {
    if |locs| == 0 then None
    else
      var k := FirstAtOrAfter(locs, year);
      var chosen := if k < |locs| then k else 0;
      Some(Position(locs[chosen]))
  }

  /** `getPos`: a linear search with early return. */
  method GetPos(locs: seq<YearLocation>, year: int) returns (pos: Option<Vec2>)
    ensures pos == PosAt(locs, year)
  {
    for i := 0 to |locs|
      invariant forall m :: 0 <= m < i ==> locs[m].year < year
    {
      if year <= locs[i].year {
        return Some(Position(locs[i]));
      }
    }
    if |locs| == 0 {
      return None;
    }
    return Some(Position(locs[0]));
  }

  /** `filteredElites.map(d => d.getPos(year))`; `None` when some record's `getPos` throws. */
  function PositionsAt(elites: seq<Elite>, year: int): (r: Option<seq<Vec2>>)
    ensures r.Some? <==> forall k :: 0 <= k < |elites| ==> |elites[k].yearLocation| > 0
    ensures r.Some? ==> |r.value| == |elites|
    ensures r.Some? ==> forall k :: 0 <= k < |elites| ==> Some(r.value[k]) == PosAt(elites[k].yearLocation, year)
    decreases |elites|
  {
    if |elites| == 0 then Some([])
    else
      match (PosAt(elites[0].yearLocation, year), PositionsAt(elites[1..], year))
      case (Some(p), Some(ps)) => Some([p] + ps)
      case _ => None
  }

  /** If `getPos` succeeds on every record of a list, it succeeds on every record of a subsequence. */
  lemma PositionsOfSubsequence(a: seq<Elite>, b: seq<Elite>, year: int)
    requires IsSubsequence(a, b) && PositionsAt(b, year).Some?
    ensures PositionsAt(a, year).Some?
  {
    SubsequenceElements(a, b);
    forall k | 0 <= k < |a|
      ensures |a[k].yearLocation| > 0
    {
      assert a[k] in b;
    }
  }

  /**
   * The observations both maps draw: the records filtered by `type` and `year`, from the lite
   * list when `useLiteData`, mapped through `getPos(year)`; `None` when some `getPos` throws.
   */
  function FilteredPositions(eliteData: seq<Elite>, eliteType: Option<string>, year: int, useLiteData: bool)
    : (r: Option<seq<Vec2>>)
    ensures r.Some? <==> forall k :: 0 <= k < |GetFilteredElites(eliteData, eliteType, Some(year), useLiteData)| ==>
      |GetFilteredElites(eliteData, eliteType, Some(year), useLiteData)[k].yearLocation| > 0
    ensures r.Some? ==> |r.value| == |GetFilteredElites(eliteData, eliteType, Some(year), useLiteData)|
    ensures r.Some? ==> forall k :: 0 <= k < |r.value| ==>
      Some(r.value[k]) == PosAt(GetFilteredElites(eliteData, eliteType, Some(year), useLiteData)[k].yearLocation, year)
  {
    PositionsAt(GetFilteredElites(eliteData, eliteType, Some(year), useLiteData), year)
  }

  /** When the positions of all records of a year exist, so do those of any type among them. */
  lemma FilteredPositionsNarrow(eliteData: seq<Elite>, eliteType: Option<string>, year: int, useLiteData: bool)
    requires FilteredPositions(eliteData, None, year, useLiteData).Some?
    ensures FilteredPositions(eliteData, eliteType, year, useLiteData).Some?
    ensures |FilteredPositions(eliteData, eliteType, year, useLiteData).value|
         <= |FilteredPositions(eliteData, None, year, useLiteData).value|
  {
    var all := GetFilteredElites(eliteData, None, Some(year), useLiteData);
    var chosen := GetFilteredElites(eliteData, eliteType, Some(year), useLiteData);
    TypeFilterNarrows(eliteData, eliteType, Some(year), useLiteData);
    PositionsOfSubsequence(chosen, all, year);
  }

  /**
   * Selecting by a record's own type never drops it: a record of the starting list alive in
   * `year` is in the result, since every string includes itself.
   */
  lemma OwnTypeKept(eliteData: seq<Elite>, d: Elite, year: int, useLiteData: bool)
    requires d in StartList(eliteData, useLiteData) && AliveIn(d, year)
    ensures d in GetFilteredElites(eliteData, Some(d.eliteType), Some(year), useLiteData)
  {
    IncludesItself(d.eliteType);
    assert Kept(d, Some(d.eliteType), Some(year));
    assert multiset(StartList(eliteData, useLiteData))[d] > 0;
  }
}
