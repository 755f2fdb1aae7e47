/** The filter block on the scored lead table (app.py:132-138): a CAIS
    threshold, then, for each non-empty selection, the keyword, company-size
    and funding-stage restrictions, each applied as a boolean mask that keeps
    the surviving rows in their original order. */
module Filters {
  import opened Text
  import opened Leads
  import opened Dataset
  import opened Insights

  /** The four widget values the filter block reads. */
  datatype FilterSettings = FilterSettings(
    minCais: int,
    keywords: seq<string>,
    sizes: seq<string>,
    stages: seq<string>)

  /** One boolean mask of the filter block. */
  datatype Criterion =
    | AtLeast(minCais: int)
    | AnyKeyword(keywords: seq<string>)
    | SizeIn(sizes: seq<string>)
    | StageIn(stages: seq<string>)

  /** The mask's value on one row: `CAIS >= min`, any selected keyword a
      substring of 'Keywords', `isin` on 'Company Size' and 'Funding Stage'. */
  predicate Satisfies(row: ScoredLead, c: Criterion)
  {
    match c
    case AtLeast(m) => row.cais >= m
    case AnyKeyword(kws) => exists i :: 0 <= i < |kws| && Contains(row.lead.keywords, kws[i])
    case SizeIn(sizes) => row.lead.companySize in sizes
    case StageIn(stages) => row.lead.fundingStage in stages
  }

  predicate SatisfiesAll(row: ScoredLead, cs: seq<Criterion>)
  {
    forall i :: 0 <= i < |cs| ==> Satisfies(row, cs[i])
  }

  /** Boolean masking by the conjunction of `cs`: the rows that pass, in order. */
  function Filter(rows: seq<ScoredLead>, cs: seq<Criterion>): (kept: seq<ScoredLead>)
    ensures |kept| <= |rows|
    ensures forall x :: x in kept <==> x in rows && SatisfiesAll(x, cs)
    decreases |rows|
  {
    if rows == [] then []
    else (if SatisfiesAll(rows[0], cs) then [rows[0]] else []) + Filter(rows[1..], cs)
  }

  /** Masking keeps every copy of a passing row and drops every copy of a
      failing one: a repeated row is kept as often as the input holds it. */
  lemma {:induction false} FilterKeepsEveryCopy(rows: seq<ScoredLead>, cs: seq<Criterion>)
    ensures forall x :: multiset(Filter(rows, cs))[x] == if SatisfiesAll(x, cs) then multiset(rows)[x] else 0
    decreases |rows|
  {
    if rows != [] {
      FilterKeepsEveryCopy(rows[1..], cs);
      assert rows == [rows[0]] + rows[1..];
    }
  }

  /** The masks the filter block applies: the threshold always, each
      selection only when it is non-empty. */
  function Criteria(s: FilterSettings): seq<Criterion>
  {
    [AtLeast(s.minCais)]
      + Optional(s.keywords != [], AnyKeyword(s.keywords))
      + Optional(s.sizes != [], SizeIn(s.sizes))
      + Optional(s.stages != [], StageIn(s.stages))
  }

  /** A mask that is applied only when its selection is non-empty. */
  function Optional(selected: bool, c: Criterion): seq<Criterion>
  {
    if selected then [c] else []
  }

  /** What a surviving row must satisfy, dimension by dimension: an empty
      selection leaves its dimension unconstrained. */
  predicate Matches(row: ScoredLead, s: FilterSettings)
  {
    && row.cais >= s.minCais
    && (s.keywords == [] || exists k :: k in s.keywords && Contains(row.lead.keywords, k))
    && (s.sizes == [] || row.lead.companySize in s.sizes)
    && (s.stages == [] || row.lead.fundingStage in s.stages)
  }

  /** `xs` is `ys` with some elements removed and the rest in their order. */
  ghost predicate IsSubsequence<T>(xs: seq<T>, ys: seq<T>)
    decreases |ys|
  {
    xs == [] || (ys != [] && ((xs[0] == ys[0] && IsSubsequence(xs[1..], ys[1..])) || IsSubsequence(xs, ys[1..])))
  }

  lemma {:induction false} SubsequenceLength<T>(xs: seq<T>, ys: seq<T>)
    requires IsSubsequence(xs, ys)
    ensures |xs| <= |ys|
    decreases |ys|
  {
    if xs != [] {
      if xs[0] == ys[0] && IsSubsequence(xs[1..], ys[1..]) {
        SubsequenceLength(xs[1..], ys[1..]);
      } else {
        SubsequenceLength(xs, ys[1..]);
      }
    }
  }

  lemma {:induction false} SubsequenceReflexive<T>(xs: seq<T>)
    ensures IsSubsequence(xs, xs)
    decreases |xs|
  {
    if xs != [] {
      SubsequenceReflexive(xs[1..]);
    }
  }

  /** The masks in `cs` hold of a row exactly when the settings do. */
  lemma CriteriaMeanMatches(row: ScoredLead, s: FilterSettings)
    ensures SatisfiesAll(row, Criteria(s)) <==> Matches(row, s)
  {
    var cs := Criteria(s);
    assert cs[0] == AtLeast(s.minCais);
    var k := 1;
    if s.keywords != [] {
      assert cs[k] == AnyKeyword(s.keywords);
      k := k + 1;
      if exists i :: 0 <= i < |s.keywords| && Contains(row.lead.keywords, s.keywords[i]) {
        var i :| 0 <= i < |s.keywords| && Contains(row.lead.keywords, s.keywords[i]);
        assert s.keywords[i] in s.keywords;
      }
    }
    if s.sizes != [] {
      assert cs[k] == SizeIn(s.sizes);
      k := k + 1;
    }
    if s.stages != [] {
      assert cs[k] == StageIn(s.stages);
    }
  }

  lemma SatisfiesAllAppend(x: ScoredLead, a: seq<Criterion>, b: seq<Criterion>)
    ensures SatisfiesAll(x, a + b) <==> SatisfiesAll(x, a) && SatisfiesAll(x, b)
  {
    if SatisfiesAll(x, a + b) {
      forall i | 0 <= i < |a| ensures Satisfies(x, a[i]) {
        assert (a + b)[i] == a[i];
      }
      forall i | 0 <= i < |b| ensures Satisfies(x, b[i]) {
        assert (a + b)[|a| + i] == b[i];
      }
    }
  }

  /** Masking by `a` and then by `b` is masking by both at once. */
  lemma {:induction false} FilterThenFilter(rows: seq<ScoredLead>, a: seq<Criterion>, b: seq<Criterion>)
    ensures Filter(Filter(rows, a), b) == Filter(rows, a + b)
    decreases |rows|
  {
    if rows != [] {
      FilterThenFilter(rows[1..], a, b);
      var x := rows[0];
      SatisfiesAllAppend(x, a, b);
      if SatisfiesAll(x, a) {
        assert Filter(rows, a) == [x] + Filter(rows[1..], a);
        assert Filter(rows, a)[1..] == Filter(rows[1..], a);
      } else {
        assert Filter(rows, a) == Filter(rows[1..], a);
      }
    }
  }

  /** Two criteria lists that accept the same rows mask the same way. */
  lemma {:induction false} FilterSameAcceptance(rows: seq<ScoredLead>, a: seq<Criterion>, b: seq<Criterion>)
    requires forall x :: SatisfiesAll(x, a) <==> SatisfiesAll(x, b)
    ensures Filter(rows, a) == Filter(rows, b)
    decreases |rows|
  {
    if rows != [] {
      FilterSameAcceptance(rows[1..], a, b);
    }
  }

  /** If every row `b` accepts is accepted by `a`, masking by `b` keeps an
      in-order selection of what masking by `a` keeps. */
  lemma {:induction false} FilterNarrower(rows: seq<ScoredLead>, a: seq<Criterion>, b: seq<Criterion>)
    requires forall x :: SatisfiesAll(x, b) ==> SatisfiesAll(x, a)
    ensures IsSubsequence(Filter(rows, b), Filter(rows, a))
    decreases |rows|
  {
    if rows != [] {
      FilterNarrower(rows[1..], a, b);
      var x, fa, fb := rows[0], Filter(rows[1..], a), Filter(rows[1..], b);
      if SatisfiesAll(x, b) {
        assert Filter(rows, b) == [x] + fb && Filter(rows, a) == [x] + fa;
        assert ([x] + fb)[1..] == fb && ([x] + fa)[1..] == fa;
      } else if SatisfiesAll(x, a) {
        assert Filter(rows, b) == fb;
        assert Filter(rows, a) == [x] + fa && ([x] + fa)[1..] == fa;
      } else {
        assert Filter(rows, b) == fb && Filter(rows, a) == fa;
      }
    }
  }

  /** The rows a mask keeps are an in-order selection of its input. */
  lemma FilterIsSubsequence(rows: seq<ScoredLead>, cs: seq<Criterion>)
    ensures IsSubsequence(Filter(rows, cs), rows)
  {
    FilterNarrower(rows, [], cs);
    FilterIdentity(rows);
  }

  /** The empty conjunction keeps every row. */
  lemma {:induction false} FilterIdentity(rows: seq<ScoredLead>)
    ensures Filter(rows, []) == rows
    ensures IsSubsequence(Filter(rows, []), rows)
    decreases |rows|
  {
    if rows != [] {
      FilterIdentity(rows[1..]);
      assert [rows[0]] + rows[1..] == rows;
    }
    SubsequenceReflexive(rows);
  }

  /** Masking keeps a table sorted by CAIS, highest first. */
  lemma {:induction false} FilterPreservesOrder(rows: seq<ScoredLead>, cs: seq<Criterion>)
    requires SortedByCaisDescending(rows)
    ensures SortedByCaisDescending(Filter(rows, cs))
    decreases |rows|
  {
    if rows != [] {
      FilterPreservesOrder(rows[1..], cs);
      var rest := Filter(rows[1..], cs);
      forall j | 0 <= j < |rest| ensures rows[0].cais >= rest[j].cais {
        assert rest[j] in rows[1..];
        var k :| 0 <= k < |rows[1..]| && rows[1..][k] == rest[j];
        assert rows[k + 1] == rest[j];
      }
    }
  }

  /** What the masks in `Criteria(s)` keep: exactly the matching rows, each as
      often as the input holds it, as an in-order selection of the input,
      sorted whenever the input is. */
  lemma FilterBySettings(leads: seq<ScoredLead>, s: FilterSettings)
    ensures forall x :: x in Filter(leads, Criteria(s)) <==> x in leads && Matches(x, s)
    ensures forall x :: multiset(Filter(leads, Criteria(s)))[x] == if Matches(x, s) then multiset(leads)[x] else 0
    ensures IsSubsequence(Filter(leads, Criteria(s)), leads)
    ensures SortedByCaisDescending(leads) ==> SortedByCaisDescending(Filter(leads, Criteria(s)))
  {
    forall x ensures SatisfiesAll(x, Criteria(s)) <==> Matches(x, s) {
      CriteriaMeanMatches(x, s);
    }
    FilterKeepsEveryCopy(leads, Criteria(s));
    FilterIsSubsequence(leads, Criteria(s));
    if SortedByCaisDescending(leads) {
      FilterPreservesOrder(leads, Criteria(s));
    }
  }

  /** Filtering twice with the same settings gives what filtering once gives. */
  lemma FilterIdempotent(rows: seq<ScoredLead>, s: FilterSettings)
    ensures Filter(Filter(rows, Criteria(s)), Criteria(s)) == Filter(rows, Criteria(s))
  {
    var cs := Criteria(s);
    FilterThenFilter(rows, cs, cs);
    forall x ensures SatisfiesAll(x, cs + cs) <==> SatisfiesAll(x, cs) {
      SatisfiesAllAppend(x, cs, cs);
    }
    FilterSameAcceptance(rows, cs + cs, cs);
  }

  /** Selection `a` admits no more than selection `b`: `b` is unconstrained,
      or `a` is a non-empty part of it. */
  predicate SelectionNarrower(a: seq<string>, b: seq<string>)
  {
    b == [] || (a != [] && forall k :: k in a ==> k in b)
  }

  /** Settings `t` are at least as strict as `s` in every dimension: a higher
      threshold, a constraint where `s` had none, or fewer selected values. */
  predicate Tighter(t: FilterSettings, s: FilterSettings)
  {
    && t.minCais >= s.minCais
    && SelectionNarrower(t.keywords, s.keywords)
    && SelectionNarrower(t.sizes, s.sizes)
    && SelectionNarrower(t.stages, s.stages)
  }

  /** Tightening the settings never enlarges the result: it keeps an in-order
      selection of what the looser settings keep. Raising the threshold or
      adding a selection to an unconstrained dimension are instances; so is
      dropping values from a non-empty selection, and read the other way,
      adding a value to a non-empty selection can only widen the result. */
  lemma TighterSettingsNarrow(rows: seq<ScoredLead>, t: FilterSettings, s: FilterSettings)
    requires Tighter(t, s)
    ensures IsSubsequence(Filter(rows, Criteria(t)), Filter(rows, Criteria(s)))
    ensures |Filter(rows, Criteria(t))| <= |Filter(rows, Criteria(s))|
  {
    forall x | SatisfiesAll(x, Criteria(t)) ensures SatisfiesAll(x, Criteria(s)) {
      CriteriaMeanMatches(x, t);
      CriteriaMeanMatches(x, s);
    }
    FilterNarrower(rows, Criteria(s), Criteria(t));
    SubsequenceLength(Filter(rows, Criteria(t)), Filter(rows, Criteria(s)));
  }

  /** Why the source skips an empty selection: the mask of an empty list
      (`isin([])`, `any` over nothing) rejects every row. */
  lemma EmptySelectionMaskRejectsAll(rows: seq<ScoredLead>)
    ensures Filter(rows, [AnyKeyword([])]) == []
    ensures Filter(rows, [SizeIn([])]) == []
    ensures Filter(rows, [StageIn([])]) == []
  {
    forall c | c in [AnyKeyword([]), SizeIn([]), StageIn([])]
      ensures Filter(rows, [c]) == []
    {
      forall x ensures !SatisfiesAll(x, [c]) {
        assert !Satisfies(x, [c][0]);
      }
      FilterRejectingAll(rows, [c]);
    }
  }

  lemma {:induction false} FilterRejectingAll(rows: seq<ScoredLead>, cs: seq<Criterion>)
    requires forall x :: !SatisfiesAll(x, cs)
    ensures Filter(rows, cs) == []
    decreases |rows|
  {
    if rows != [] {
      FilterRejectingAll(rows[1..], cs);
    }
  }

  /** One step of the filter block: applying an optional mask after `a`. */
  lemma FilterOptionalStep(rows: seq<ScoredLead>, a: seq<Criterion>, selected: bool, c: Criterion)
    ensures Filter(rows, a + Optional(selected, c))
         == if selected then Filter(Filter(rows, a), [c]) else Filter(rows, a)
  {
    FilterThenFilter(rows, a, Optional(selected, c));
    if !selected {
      assert a + [] == a;
    }
  }

  /** How the filter block ends. `Kept` is the filtered table. `MissingColumn`
      is the KeyError pandas raises when the block reads a column the frame
      no longer has. */
  datatype FilterOutcome = Kept(rows: seq<ScoredLead>) | MissingColumn(column: string)

  /** No row reaches the threshold, so the threshold mask leaves an empty frame. */
  predicate NoneReachThreshold(leads: seq<ScoredLead>, minCais: int)
  {
    forall i :: 0 <= i < |leads| ==> leads[i].cais < minCais
  }

  /** The threshold mask keeps nothing exactly when no row reaches the threshold. */
  lemma ThresholdKeepsNothing(leads: seq<ScoredLead>, minCais: int)
    ensures Filter(leads, [AtLeast(minCais)]) == [] <==> NoneReachThreshold(leads, minCais)
  {
    var kept := Filter(leads, [AtLeast(minCais)]);
    if kept == [] {
      forall i | 0 <= i < |leads| ensures leads[i].cais < minCais {
        assert leads[i] !in kept;
        assert !Satisfies(leads[i], [AtLeast(minCais)][0]);
      }
    } else {
      assert kept[0] in kept && Satisfies(kept[0], [AtLeast(minCais)][0]);
      var i :| 0 <= i < |leads| && leads[i] == kept[0];
    }
  }

  /** The filter block as the source runs it: the threshold mask first, then
      each non-empty selection in turn, rebinding the result each time.
      The keyword mask comes from `apply` over the 'Keywords' column. Over an
      empty frame, pandas' `apply` gives an empty object-dtype Series, and
      pandas does not read that as a boolean mask. It reads it as a list of
      columns, so the frame keeps no columns. A later size or funding-stage
      selection then reads a column that is gone. */
  method ApplyFilters(leads: seq<ScoredLead>, settings: FilterSettings) returns (outcome: FilterOutcome)
    ensures outcome.MissingColumn? <==>
      settings.keywords != [] && NoneReachThreshold(leads, settings.minCais)
      && (settings.sizes != [] || settings.stages != [])
    ensures outcome.MissingColumn? ==>
      outcome.column == if settings.sizes != [] then "Company Size" else "Funding Stage"
    ensures outcome.Kept? ==> outcome.rows == Filter(leads, Criteria(settings))
    ensures outcome.Kept? ==> forall x :: x in outcome.rows <==> x in leads && Matches(x, settings)
    ensures outcome.Kept? ==>
      forall x :: multiset(outcome.rows)[x] == if Matches(x, settings) then multiset(leads)[x] else 0
    ensures outcome.Kept? ==> IsSubsequence(outcome.rows, leads)
    ensures outcome.Kept? && SortedByCaisDescending(leads) ==> SortedByCaisDescending(outcome.rows)
  {
    ThresholdKeepsNothing(leads, settings.minCais);
    ghost var applied := [AtLeast(settings.minCais)];
    var filtered := Filter(leads, [AtLeast(settings.minCais)]);
    var hasColumns := true;

    FilterOptionalStep(leads, applied, settings.keywords != [], AnyKeyword(settings.keywords));
    if settings.keywords != [] {
      hasColumns := filtered != [];
      filtered := Filter(filtered, [AnyKeyword(settings.keywords)]);
    }
    applied := applied + Optional(settings.keywords != [], AnyKeyword(settings.keywords));

    FilterOptionalStep(leads, applied, settings.sizes != [], SizeIn(settings.sizes));
    if settings.sizes != [] {
      if !hasColumns {
        return MissingColumn("Company Size");
      }
      filtered := Filter(filtered, [SizeIn(settings.sizes)]);
    }
    applied := applied + Optional(settings.sizes != [], SizeIn(settings.sizes));

    FilterOptionalStep(leads, applied, settings.stages != [], StageIn(settings.stages));
    if settings.stages != [] {
      if !hasColumns {
        return MissingColumn("Funding Stage");
      }
      filtered := Filter(filtered, [StageIn(settings.stages)]);
    }
    applied := applied + Optional(settings.stages != [], StageIn(settings.stages));

    FilterBySettings(leads, settings);
    outcome := Kept(filtered);
  }

  /** The scoring pass feeds the filter block: every row the block keeps from a
      freshly scored table is scored from its own lead, clears the threshold,
      is at most 100, and carries the summary for its score. */
  lemma FilteredRowsAreScored(leads: seq<Lead>, s: FilterSettings)
    ensures forall x :: x in Filter(ScoreAll(leads), Criteria(s)) ==>
      && WellScored(x)
      && s.minCais <= x.cais <= 100
      && x.insight == GetInsights(x.cais, x.pain, x.readiness).summary
  {
    var rows := ScoreAll(leads);
    FilterBySettings(rows, s);
    forall x | x in Filter(rows, Criteria(s))
      ensures WellScored(x) && s.minCais <= x.cais <= 100
      ensures x.insight == GetInsights(x.cais, x.pain, x.readiness).summary
    {
      var i :| 0 <= i < |rows| && rows[i] == x;
      assert WellScored(rows[i]);
    }
  }
}
