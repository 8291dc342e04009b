/**
 Constant labels on fanned-out series (pkg/controller/metrics.go:277-298).
 */
module Labels {
  import opened Metrics
  import Names

  type Constants = map<string, string>

  function LabelName(l: Label): string {
    l.name
  }

  ghost predicate Named(labels: seq<Label>, name: string) {
    exists l :: l in labels && l.name == name
  }

  method HasLabel(labels: seq<Label>, name: string) returns (found: bool)
    ensures found <==> Named(labels, name)
  {
    var i := 0;
    while i < |labels|
      invariant 0 <= i <= |labels|
      invariant forall j | 0 <= j < i :: labels[j].name != name
    {
      if labels[i].name == name {
        return true;
      }
      i := i + 1;
    }
    return false;
  }

  /** The constants among `keys` that the series does not carry already. */
  ghost function Missing(labels: seq<Label>, consts: Constants, keys: set<string>): set<Label> {
    set n | n in keys && n in consts && !Named(labels, n) :: Label(n, consts[n])
  }

  /** Sorted by name, with what was there before and the missing constants, each once. */
  ghost predicate Injected(labels: seq<Label>, consts: Constants, r: seq<Label>) {
    Names.Ordered(r, LabelName) && multiset(r) == multiset(labels) + multiset(Missing(labels, consts, consts.Keys))
  }

  /** The constants among `keys` have been dealt with. */
  ghost predicate Partly(labels: seq<Label>, consts: Constants, keys: set<string>, out: seq<Label>) {
    multiset(out) == multiset(labels) + multiset(Missing(labels, consts, keys))
  }

  /** Only the labels there before count, since the constants have different names. */
  lemma NamedBefore(labels: seq<Label>, consts: Constants, keys: set<string>, out: seq<Label>, n: string)
    requires n !in keys && Partly(labels, consts, keys, out)
    ensures Named(out, n) <==> Named(labels, n)
  {
    assert forall l :: l in out <==> l in multiset(out);
    assert forall l :: l in labels <==> l in multiset(labels);
    assert forall l :: l in out <==> l in labels || l in Missing(labels, consts, keys);
  }

  lemma PartlyNext(labels: seq<Label>, consts: Constants, keys: set<string>, out: seq<Label>, n: string)
    requires n in consts && n !in keys && Partly(labels, consts, keys, out)
    ensures Named(out, n) <==> Named(labels, n)
    ensures Partly(labels, consts, keys + {n}, if Named(labels, n) then out else out + [Label(n, consts[n])])
  {
    NamedBefore(labels, consts, keys, out, n);
  }

  /** One series; the constants are visited in any order. */
  method InjectSeries(labels: seq<Label>, consts: Constants) returns (r: seq<Label>)
    ensures Injected(labels, consts, r)
  {
    var out, rest := labels, consts.Keys;
    ghost var seen: set<string> := {};
    while rest != {}
      invariant seen + rest == consts.Keys && seen !! rest
      invariant Partly(labels, consts, seen, out)
      decreases rest
    {
      var n :| n in rest;
      PartlyNext(labels, consts, seen, out, n);
      var found := HasLabel(out, n);
      if !found {
        out := out + [Label(n, consts[n])];
      }
      seen, rest := seen + {n}, rest - {n};
    }
    assert seen == consts.Keys;
    r := Names.SortByName(out, LabelName);
  }

  method InjectLabels(mf: Family, consts: Constants) returns (r: Family)
    ensures r.name == mf.name && r.help == mf.help && r.kind == mf.kind && |r.series| == |mf.series|
    ensures forall i | 0 <= i < |mf.series| ::
              r.series[i].value == mf.series[i].value && Injected(mf.series[i].labels, consts, r.series[i].labels)
  {
    var series: seq<Series>, i := [], 0;
    while i < |mf.series|
      invariant 0 <= i <= |mf.series| && |series| == i
      invariant forall j | 0 <= j < i ::
        series[j].value == mf.series[j].value && Injected(mf.series[j].labels, consts, series[j].labels)
    {
      var labels := InjectSeries(mf.series[i].labels, consts);
      series := series + [Series(labels, mf.series[i].value)];
      i := i + 1;
    }
    r := mf.(series := series);
  }

  /** Label names stay unique: the result is strictly ascending when the series had no name twice. */
  lemma InjectedAscending(labels: seq<Label>, consts: Constants, r: seq<Label>)
    requires Injected(labels, consts, r) && Names.Distinct(labels, LabelName)
    ensures Names.Ascending(r, LabelName)
  {
    Names.DistinctExactly(labels, LabelName);
    Names.DistinctExactly(r, LabelName);
    Names.DistinctOrdered(r, LabelName);
  }

  /** Exactly: names are unique afterwards if and only if they were before. */
  lemma InjectedUniqueExactly(labels: seq<Label>, consts: Constants, r: seq<Label>)
    requires Injected(labels, consts, r)
    ensures Names.Distinct(r, LabelName) <==> Names.Distinct(labels, LabelName)
  {
    if Names.Distinct(labels, LabelName) {
      InjectedAscending(labels, consts, r);
      forall i, j | 0 <= i < j < |r|
        ensures r[i].name != r[j].name
      {
        Names.Trichotomy(r[i].name, r[j].name);
      }
    }
    if Names.Distinct(r, LabelName) {
      Names.DistinctExactly(r, LabelName);
      assert forall x | x in multiset(labels) :: x in multiset(r) && multiset(labels)[x] <= multiset(r)[x];
      Names.DistinctExactly(labels, LabelName);
    }
  }

  /** The order in which the constants are visited does not show in the result. */
  lemma InjectedDetermined(labels: seq<Label>, consts: Constants, r: seq<Label>, r': seq<Label>)
    requires Names.Distinct(labels, LabelName)
    requires Injected(labels, consts, r) && Injected(labels, consts, r')
    ensures r == r'
  {
    InjectedAscending(labels, consts, r);
    InjectedAscending(labels, consts, r');
    Names.AscendingUnique(r, r', LabelName);
  }
}
