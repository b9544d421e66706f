/** Types shared by the VAT reconcilers: one breakdown row, the names of the four
    VAT sections of a shift, and the stable sort by rate that the reconcilers
    apply (`rows.sort((a, b) => a.moms_percentage - b.moms_percentage)`). */
module Vat {
  import opened Js

  /** One VAT breakdown row: rate (`moms_percentage`), gross (`brutto`),
      net (`netto`) and tax (`moms_kr`). */
  datatype VatDetail = VatDetail(rate: Number, brutto: Number, netto: Number, momsKr: Number)

  /** The sections of a shift that hold VAT rows (utils/vat/constants.ts). */
  const VAT_SECTIONS: seq<string> :=
    ["kontant_details", "kredit_details", "total_inkort_details", "varav_bom_avbest_details"]

  /** Each section comes once: none is among the ones before it. */
  lemma SectionNotYetDone(i: nat)
    requires i < |VAT_SECTIONS|
    ensures VAT_SECTIONS[i] !in VAT_SECTIONS[..i]
  {
    var s := VAT_SECTIONS;
    assert s[0][0] == 'k' && s[1][0] == 'k' && s[2][0] == 't' && s[3][0] == 'v';
    assert s[0][1] == 'o' && s[1][1] == 'r';
  }

  /** A loop over a sequence extends the prefix it has done by one element. */
  lemma TakeOneMore<T>(s: seq<T>, i: nat)
    requires i < |s|
    ensures s[..i + 1] == s[..i] + [s[i]]
  {
  }

  /** The two statutory rates. */
  const ALLOWED_RATES: set<real> := {6.0, 25.0}

  /** The row the reconcilers synthesize for a missing rate. */
  function ZeroRow(rate: real): VatDetail {
    VatDetail(Finite(rate), Finite(0.0), Finite(0.0), Finite(0.0))
  }

  /** `n > 0` on a number (NaN compares false). */
  predicate Gt0(n: Number) { n.Finite? && n.val > 0.0 }

  /** The row as the plain object it is in the source. */
  function ToValue(d: VatDetail): (v: Value)
    ensures v.Obj?
  {
    Obj(map["moms_percentage" := Num(d.rate), "brutto" := Num(d.brutto),
            "netto" := Num(d.netto), "moms_kr" := Num(d.momsKr)])
  }

  function ToValues(ds: seq<VatDetail>): (vs: seq<Value>)
    ensures |vs| == |ds|
    ensures forall i :: 0 <= i < |ds| ==> vs[i] == ToValue(ds[i])
  {
    if ds == [] then [] else [ToValue(ds[0])] + ToValues(ds[1..])
  }

  lemma ToValuesConcat(a: seq<VatDetail>, b: seq<VatDetail>)
    ensures ToValues(a + b) == ToValues(a) + ToValues(b)
  {
  }

  // ---------------------------------------------------------------------------
  // Filtering

  function Filter<T>(xs: seq<T>, p: T -> bool): (r: seq<T>)
    ensures |r| <= |xs|
    ensures forall i :: 0 <= i < |r| ==> p(r[i])
  {
    if xs == [] then []
    else if p(xs[0]) then [xs[0]] + Filter(xs[1..], p) else Filter(xs[1..], p)
  }

  /** Filtering only drops elements. */
  lemma {:induction false} FilterMember<T>(xs: seq<T>, p: T -> bool, x: T)
    requires x in Filter(xs, p)
    ensures x in xs && p(x)
  {
    if x != xs[0] {
      FilterMember(xs[1..], p, x);
    }
  }

  lemma {:induction false} FilterConcat<T>(a: seq<T>, b: seq<T>, p: T -> bool)
    ensures Filter(a + b, p) == Filter(a, p) + Filter(b, p)
  {
    if a == [] {
      assert a + b == b;
    } else {
      assert (a + b)[0] == a[0];
      assert (a + b)[1..] == a[1..] + b;
      FilterConcat(a[1..], b, p);
    }
  }

  lemma {:induction false} FilterAll<T>(xs: seq<T>, p: T -> bool)
    requires forall i :: 0 <= i < |xs| ==> p(xs[i])
    ensures Filter(xs, p) == xs
  {
    if xs != [] {
      FilterAll(xs[1..], p);
    }
  }

  lemma {:induction false} FilterNone<T>(xs: seq<T>, p: T -> bool)
    requires forall i :: 0 <= i < |xs| ==> !p(xs[i])
    ensures Filter(xs, p) == []
  {
    if xs != [] {
      FilterNone(xs[1..], p);
    }
  }

  lemma {:induction false} FilterKeepsMembers<T>(xs: seq<T>, p: T -> bool, x: T)
    requires x in xs && p(x)
    ensures x in Filter(xs, p)
  {
    if xs[0] != x {
      FilterKeepsMembers(xs[1..], p, x);
    }
  }

  // ---------------------------------------------------------------------------
  // Stable sort by a numeric key

  /** `a > b` on numbers (NaN compares false). */
  predicate Greater(a: Number, b: Number) { a.Finite? && b.Finite? && a.val > b.val }

  /** Inserts `x` in front of the first element whose key is greater, so that
      elements with equal keys keep their order. */
  function InsertBy<T>(acc: seq<T>, x: T, key: T -> Number): (r: seq<T>)
    ensures |r| == |acc| + 1
  {
    if acc == [] then [x]
    else if Greater(key(acc[0]), key(x)) then [x] + acc
    else [acc[0]] + InsertBy(acc[1..], x, key)
  }

  function InsertAll<T>(acc: seq<T>, xs: seq<T>, key: T -> Number): (r: seq<T>)
    ensures |r| == |acc| + |xs|
    decreases |xs|
  {
    if xs == [] then acc
    else InsertAll(InsertBy(acc, xs[0], key), xs[1..], key)
  }

  /** A stable sort of `xs` by `key`. */
  function SortBy<T>(xs: seq<T>, key: T -> Number): (r: seq<T>)
    ensures |r| == |xs|
  {
    InsertAll([], xs, key)
  }

  lemma {:induction false} InsertByPermutes<T>(acc: seq<T>, x: T, key: T -> Number)
    ensures multiset(InsertBy(acc, x, key)) == multiset(acc) + multiset{x}
  {
    if acc != [] && !Greater(key(acc[0]), key(x)) {
      InsertByPermutes(acc[1..], x, key);
      assert acc == [acc[0]] + acc[1..];
    }
  }

  lemma {:induction false} InsertAllPermutes<T>(acc: seq<T>, xs: seq<T>, key: T -> Number)
    ensures multiset(InsertAll(acc, xs, key)) == multiset(acc) + multiset(xs)
    decreases |xs|
  {
    if xs != [] {
      InsertByPermutes(acc, xs[0], key);
      InsertAllPermutes(InsertBy(acc, xs[0], key), xs[1..], key);
      assert xs == [xs[0]] + xs[1..];
    }
  }

  /** The sort is a permutation. */
  lemma SortByPermutes<T>(xs: seq<T>, key: T -> Number)
    ensures multiset(SortBy(xs, key)) == multiset(xs)
  {
    InsertAllPermutes([], xs, key);
  }

  ghost predicate FiniteKeys<T>(xs: seq<T>, key: T -> Number) {
    forall y | y in xs :: key(y).Finite?
  }

  /** Every key in `xs` is a number no smaller than `k`. */
  ghost predicate LowerBound<T>(xs: seq<T>, key: T -> Number, k: real) {
    forall y | y in xs :: key(y).Finite? && k <= key(y).val
  }

  /** Every key in `xs` is a number no greater than `k`. */
  ghost predicate UpperBound<T>(xs: seq<T>, key: T -> Number, k: real) {
    forall y | y in xs :: key(y).Finite? && key(y).val <= k
  }

  /** Keys are numbers in ascending order. */
  ghost predicate SortedBy<T>(xs: seq<T>, key: T -> Number) {
    xs == [] ||
    (key(xs[0]).Finite? && LowerBound(xs[1..], key, key(xs[0]).val) && SortedBy(xs[1..], key))
  }

  lemma {:induction false} SortedFinite<T>(xs: seq<T>, key: T -> Number)
    requires SortedBy(xs, key)
    ensures FiniteKeys(xs, key)
  {
    if xs != [] {
      SortedFinite(xs[1..], key);
      assert xs == [xs[0]] + xs[1..];
    }
  }

  lemma {:induction false} InsertBySorted<T>(acc: seq<T>, x: T, key: T -> Number)
    requires SortedBy(acc, key) && key(x).Finite?
    ensures SortedBy(InsertBy(acc, x, key), key)
  {
    if acc == [] {
    } else if Greater(key(acc[0]), key(x)) {
      assert acc == [acc[0]] + acc[1..];
      assert LowerBound(acc, key, key(x).val);
    } else {
      InsertBySorted(acc[1..], x, key);
      var r := InsertBy(acc[1..], x, key);
      InsertByPermutes(acc[1..], x, key);
      forall y | y in r
        ensures key(y).Finite? && key(acc[0]).val <= key(y).val
      {
        assert y in multiset(r);
      }
      assert InsertBy(acc, x, key)[1..] == r;
    }
  }

  lemma {:induction false} InsertAllSorted<T>(acc: seq<T>, xs: seq<T>, key: T -> Number)
    requires SortedBy(acc, key) && FiniteKeys(xs, key)
    ensures SortedBy(InsertAll(acc, xs, key), key)
    decreases |xs|
  {
    if xs != [] {
      assert xs[0] in xs;
      InsertBySorted(acc, xs[0], key);
      InsertAllSorted(InsertBy(acc, xs[0], key), xs[1..], key);
    }
  }

  /** With numeric keys the sort yields ascending keys. */
  lemma SortBySorted<T>(xs: seq<T>, key: T -> Number)
    requires FiniteKeys(xs, key)
    ensures SortedBy(SortBy(xs, key), key)
  {
    InsertAllSorted([], xs, key);
  }

  lemma {:induction false} InsertAllConcat<T>(acc: seq<T>, a: seq<T>, b: seq<T>, key: T -> Number)
    ensures InsertAll(acc, a + b, key) == InsertAll(InsertAll(acc, a, key), b, key)
    decreases |a|
  {
    if a == [] {
      assert a + b == b;
    } else {
      assert (a + b)[0] == a[0];
      assert (a + b)[1..] == a[1..] + b;
      InsertAllConcat(InsertBy(acc, a[0], key), a[1..], b, key);
    }
  }

  lemma {:induction false} SortedSnoc<T>(p: seq<T>, l: T, key: T -> Number)
    requires SortedBy(p + [l], key)
    ensures SortedBy(p, key) && key(l).Finite? && UpperBound(p, key, key(l).val)
  {
    if p == [] {
      assert p + [l] == [l];
    } else {
      assert (p + [l])[1..] == p[1..] + [l];
      SortedSnoc(p[1..], l, key);
      assert l in (p + [l])[1..];
      assert p[1..] <= (p + [l])[1..];
      assert p == [p[0]] + p[1..];
    }
  }

  lemma {:induction false} InsertByLast<T>(acc: seq<T>, x: T, key: T -> Number)
    requires key(x).Finite? && UpperBound(acc, key, key(x).val)
    ensures InsertBy(acc, x, key) == acc + [x]
  {
    if acc != [] {
      assert acc[0] in acc;
      InsertByLast(acc[1..], x, key);
      assert acc == [acc[0]] + acc[1..];
    }
  }

  /** The sort leaves a sorted sequence as it is. */
  lemma {:induction false} SortBySortedId<T>(s: seq<T>, key: T -> Number)
    requires SortedBy(s, key)
    ensures SortBy(s, key) == s
    decreases |s|
  {
    if s != [] {
      var p, l := s[..|s| - 1], s[|s| - 1];
      assert s == p + [l];
      SortedSnoc(p, l, key);
      SortBySortedId(p, key);
      InsertAllConcat([], p, [l], key);
      InsertByLast(p, l, key);
    }
  }

  /** Sorting a prefix first changes nothing. */
  lemma SortPrefixSorted<T>(a: seq<T>, b: seq<T>, key: T -> Number)
    requires FiniteKeys(a, key)
    ensures SortBy(SortBy(a, key) + b, key) == SortBy(a + b, key)
  {
    var s := SortBy(a, key);
    SortBySorted(a, key);
    SortBySortedId(s, key);
    InsertAllConcat([], s, b, key);
    InsertAllConcat([], a, b, key);
  }

  lemma {:induction false} FilterSorted<T>(xs: seq<T>, key: T -> Number, p: T -> bool)
    requires SortedBy(xs, key)
    ensures SortedBy(Filter(xs, p), key)
  {
    if xs != [] {
      FilterSorted(xs[1..], key, p);
      var f := Filter(xs[1..], p);
      forall y | y in f
        ensures key(y).Finite? && key(xs[0]).val <= key(y).val
      {
        FilterMember(xs[1..], p, y);
      }
    }
  }

  /** Every element left after filtering a sorted sequence whose head key exceeds
      `x`'s key also exceeds it, so `x` goes in front. */
  lemma FilterGreater<T>(acc: seq<T>, x: T, key: T -> Number, p: T -> bool)
    requires SortedBy(acc, key) && key(x).Finite? && acc != [] && Greater(key(acc[0]), key(x))
    ensures InsertBy(Filter(acc, p), x, key) == [x] + Filter(acc, p)
  {
    var f := Filter(acc, p);
    if f != [] {
      FilterMember(acc, p, f[0]);
      assert acc == [acc[0]] + acc[1..];
    }
  }

  lemma {:induction false} FilterInsertBy<T>(acc: seq<T>, x: T, key: T -> Number, p: T -> bool)
    requires SortedBy(acc, key) && key(x).Finite?
    ensures Filter(InsertBy(acc, x, key), p) ==
            if p(x) then InsertBy(Filter(acc, p), x, key) else Filter(acc, p)
  {
    if acc == [] {
    } else if Greater(key(acc[0]), key(x)) {
      FilterConcat([x], acc, p);
      if p(x) {
        FilterGreater(acc, x, key, p);
      }
    } else {
      FilterInsertBy(acc[1..], x, key, p);
      assert InsertBy(acc, x, key) == [acc[0]] + InsertBy(acc[1..], x, key);
      FilterConcat([acc[0]], InsertBy(acc[1..], x, key), p);
      assert acc == [acc[0]] + acc[1..];
      FilterConcat([acc[0]], acc[1..], p);
    }
  }

  lemma {:induction false} FilterInsertAll<T>(acc: seq<T>, xs: seq<T>, key: T -> Number, p: T -> bool)
    requires SortedBy(acc, key) && FiniteKeys(xs, key)
    ensures Filter(InsertAll(acc, xs, key), p) == InsertAll(Filter(acc, p), Filter(xs, p), key)
    decreases |xs|
  {
    if xs != [] {
      assert xs[0] in xs;
      FilterInsertBy(acc, xs[0], key, p);
      InsertBySorted(acc, xs[0], key);
      FilterInsertAll(InsertBy(acc, xs[0], key), xs[1..], key, p);
    }
  }

  /** Filtering commutes with the stable sort when the keys are numeric. */
  lemma FilterSortBy<T>(xs: seq<T>, key: T -> Number, p: T -> bool)
    requires FiniteKeys(xs, key)
    ensures Filter(SortBy(xs, key), p) == SortBy(Filter(xs, p), key)
  {
    FilterInsertAll([], xs, key, p);
    forall y | y in Filter(xs, p) ensures key(y).Finite? {
      FilterMember(xs, p, y);
    }
  }
  /** The generic re-filter step behind idempotence: when the appended rows all
      fail `p` and the original rows all pass it, filtering the sorted whole gives
      back the sorted original rows. */
  lemma {:induction false} RefilterSorted<T>(kept: seq<T>, zeros: seq<T>, key: T -> Number, p: T -> bool)
    requires forall d | d in kept :: key(d).Finite? && p(d)
    requires forall d | d in zeros :: key(d).Finite? && !p(d)
    ensures Filter(SortBy(kept + zeros, key), p) == SortBy(kept, key)
  {
    var all := kept + zeros;
    assert FiniteKeys(all, key);
    FilterSortBy(all, key, p);
    FilterConcat(kept, zeros, p);
    FilterAll(kept, p);
    FilterNone(zeros, p);
    assert kept + [] == kept;
  }

  // ---------------------------------------------------------------------------
  // Completing a breakdown with default rates

  /** The rates present among `rows`. */
  function RatesOf<T(==), R(==)>(rows: seq<T>, rate: T -> R): set<R> {
    set d | d in rows :: rate(d)
  }

  /** The default rows, in order, whose rate is not among `rates`. */
  function MissingRows<R(==), T>(rates: set<R>, defaults: seq<(R, T)>): (r: seq<T>)
    ensures forall d | d in r :: exists i :: 0 <= i < |defaults| && defaults[i].1 == d && defaults[i].0 !in rates
  {
    if defaults == [] then []
    else (if defaults[0].0 in rates then [] else [defaults[0].1]) + MissingRows(rates, defaults[1..])
  }

  /** The rows `keep` accepts, then a default row for each default rate none of
      them has, sorted by `key`: the shape both reconcilers share. */
  function WithDefaultRates<T(==), R(==)>(rows: seq<T>, keep: T -> bool, rate: T -> R,
                                   defaults: seq<(R, T)>, key: T -> Number): seq<T> {
    var kept := Filter(rows, keep);
    SortBy(kept + MissingRows(RatesOf(kept, rate), defaults), key)
  }

  lemma RatesOfPermutation<T, R>(a: seq<T>, b: seq<T>, rate: T -> R)
    requires multiset(a) == multiset(b)
    ensures RatesOf(a, rate) == RatesOf(b, rate)
  {
    forall d | d in a ensures d in b { assert d in multiset(a); }
    forall d | d in b ensures d in a { assert d in multiset(b); }
  }

  lemma {:induction false} MissingRowsHas<R, T>(rates: set<R>, defaults: seq<(R, T)>, i: nat)
    requires i < |defaults| && defaults[i].0 !in rates
    ensures defaults[i].1 in MissingRows(rates, defaults)
  {
    if i > 0 {
      MissingRowsHas(rates, defaults[1..], i - 1);
    }
  }

  /** Every default rate appears in the result. */
  lemma WithDefaultRatesComplete<T, R>(rows: seq<T>, keep: T -> bool, rate: T -> R,
                                        defaults: seq<(R, T)>, key: T -> Number, i: nat)
    requires i < |defaults| && rate(defaults[i].1) == defaults[i].0
    ensures defaults[i].0 in RatesOf(WithDefaultRates(rows, keep, rate, defaults, key), rate)
  {
    var kept := Filter(rows, keep);
    var all := kept + MissingRows(RatesOf(kept, rate), defaults);
    SortByPermutes(all, key);
    RatesOfPermutation(all, WithDefaultRates(rows, keep, rate, defaults, key), rate);
    if defaults[i].0 in RatesOf(kept, rate) {
      var d :| d in kept && rate(d) == defaults[i].0;
      assert d in all;
    } else {
      MissingRowsHas(RatesOf(kept, rate), defaults, i);
      assert defaults[i].1 in all;
    }
  }

  /** Every accepted row is in the result, unchanged. */
  lemma WithDefaultRatesKeeps<T, R>(rows: seq<T>, keep: T -> bool, rate: T -> R,
                                     defaults: seq<(R, T)>, key: T -> Number, d: T)
    requires d in rows && keep(d)
    ensures d in WithDefaultRates(rows, keep, rate, defaults, key)
  {
    var kept := Filter(rows, keep);
    var all := kept + MissingRows(RatesOf(kept, rate), defaults);
    FilterKeepsMembers(rows, keep, d);
    assert d in all;
    SortByPermutes(all, key);
    assert d in multiset(all);
  }

  /** Every row of the result is an accepted input row, or the default row of a
      rate that no accepted row has. */
  lemma WithDefaultRatesOnlyAdds<T, R>(rows: seq<T>, keep: T -> bool, rate: T -> R,
                                        defaults: seq<(R, T)>, key: T -> Number, d: T)
    requires d in WithDefaultRates(rows, keep, rate, defaults, key)
    ensures || (d in rows && keep(d))
            || exists i :: 0 <= i < |defaults| && defaults[i].1 == d &&
                           defaults[i].0 !in RatesOf(Filter(rows, keep), rate)
  {
    var kept := Filter(rows, keep);
    var all := kept + MissingRows(RatesOf(kept, rate), defaults);
    SortByPermutes(all, key);
    assert d in multiset(all);
    if d in kept {
      FilterMember(rows, keep, d);
    } else {
      assert d in MissingRows(RatesOf(kept, rate), defaults);
    }
  }

  /** Every row that `keep` accepts has a numeric key. */
  ghost predicate KeptKeysFinite<T>(rows: seq<T>, keep: T -> bool, key: T -> Number) {
    forall d | d in rows && keep(d) :: key(d).Finite?
  }

  /** Every default row has a numeric key. */
  ghost predicate DefaultKeysFinite<R, T>(defaults: seq<(R, T)>, key: T -> Number) {
    forall i | 0 <= i < |defaults| :: key(defaults[i].1).Finite?
  }

  /** No default row is accepted by `keep` itself. */
  ghost predicate DefaultsRejected<R, T>(defaults: seq<(R, T)>, keep: T -> bool) {
    forall i | 0 <= i < |defaults| :: !keep(defaults[i].1)
  }

  /** With numeric keys the result is sorted. */
  lemma WithDefaultRatesSorted<T, R>(rows: seq<T>, keep: T -> bool, rate: T -> R,
                                      defaults: seq<(R, T)>, key: T -> Number)
    requires KeptKeysFinite(rows, keep, key)
    requires DefaultKeysFinite(defaults, key)
    ensures SortedBy(WithDefaultRates(rows, keep, rate, defaults, key), key)
  {
    var kept := Filter(rows, keep);
    var all := kept + MissingRows(RatesOf(kept, rate), defaults);
    forall d | d in all ensures key(d).Finite? {
      if d in kept {
        FilterMember(rows, keep, d);
      }
    }
    SortBySorted(all, key);
  }

  /** With numeric keys, and default rows that are not accepted themselves, a
      second pass changes nothing. */
  lemma {:induction false} WithDefaultRatesIdempotent<T, R>(rows: seq<T>, keep: T -> bool, rate: T -> R,
                                                             defaults: seq<(R, T)>, key: T -> Number)
    requires KeptKeysFinite(rows, keep, key)
    requires DefaultKeysFinite(defaults, key) && DefaultsRejected(defaults, keep)
    ensures var once := WithDefaultRates(rows, keep, rate, defaults, key);
      WithDefaultRates(once, keep, rate, defaults, key) == once
  {
    var kept := Filter(rows, keep);
    var zeros := MissingRows(RatesOf(kept, rate), defaults);
    forall d | d in kept ensures key(d).Finite? && keep(d) {
      FilterMember(rows, keep, d);
    }
    RefilterSorted(kept, zeros, key, keep);
    var again := Filter(WithDefaultRates(rows, keep, rate, defaults, key), keep);
    SortByPermutes(kept, key);
    RatesOfPermutation(again, kept, rate);
    SortPrefixSorted(kept, zeros, key);
  }

  // ---------------------------------------------------------------------------
  // Section-by-section preparation of a shift record

  /** The record `m` after the loop over the sections in `done` has replaced each
      section by its processed form, or deleted it where `process` gives
      nothing. */
  function Prepared(m: map<string, Value>, done: seq<string>, process: (string, Value) -> Option<Value>): map<string, Value> {
    map k | k in m && (k in done ==> process(k, m[k]).Some?) ::
      if k in done then process(k, m[k]).value else m[k]
  }

  /** Before the loop nothing has changed. */
  lemma PreparedNothing(m: map<string, Value>, process: (string, Value) -> Option<Value>)
    ensures Prepared(m, [], process) == m
  {
  }

  /** One more section: the loop reads the section as it was in the input and
      replaces or deletes it. */
  lemma PrepareStep(m: map<string, Value>, done: seq<string>, key: string, process: (string, Value) -> Option<Value>)
    requires key !in done
    requires key !in m ==> process(key, Undefined).None?
    ensures Get(Obj(Prepared(m, done, process)), key) == Get(Obj(m), key)
    ensures var p := process(key, Get(Obj(m), key));
      Prepared(m, done + [key], process) ==
        if p.Some? then Prepared(m, done, process)[key := p.value] else Prepared(m, done, process) - {key}
  {
    var p := process(key, Get(Obj(m), key));
    var before, after := Prepared(m, done, process), Prepared(m, done + [key], process);
    var expected := if p.Some? then before[key := p.value] else before - {key};
    forall k
      ensures k in after <==> k in expected
      ensures k in after ==> after[k] == expected[k]
    {
      assert k in done + [key] <==> k in done || k == key;
      if k == key && k in m {
        assert Get(Obj(m), key) == m[key];
      }
    }
  }
}
