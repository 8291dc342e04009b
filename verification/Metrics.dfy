/**
 Merging metric families from concurrent scrapes (pkg/controller/metrics.go:229-275): families that share
 a name become one, and the result must not depend on the order in which the scrapes arrive.
 */
module Metrics {
  import opened Frames
  import Names

  datatype Label = Label(name: string, value: string)
  datatype Series = Series(labels: seq<Label>, value: real)
  datatype Family = Family(name: string, help: string, kind: nat, series: seq<Series>)

  type Merged = map<string, Family>

  function FamilyName(f: Family): string {
    f.name
  }

  /** The first family of a name is taken whole; a later one adds its series if its type is the same. */
  function Merge(m: Merged, f: Family): Merged {
    if f.name == "" then m
    else if f.name !in m then m[f.name := f]
    else if m[f.name].kind != f.kind then m
    else m[f.name := m[f.name].(series := m[f.name].series + f.series)]
  }

  function AddAll(fs: seq<Family>): Merged {
    if fs == [] then map[] else Merge(AddAll(fs[..|fs| - 1]), fs[|fs| - 1])
  }

  // The merger, as it is.

  class FamilyMerger {
    var byName: Merged

    ghost predicate Valid()
      reads this
    {
      forall n | n in byName :: byName[n].name == n
    }

    constructor ()
      ensures Valid() && byName == AddAll([])
    {
      byName := map[];
    }

    method Add(mf: Family)
      requires Valid()
      modifies this
      ensures Valid() && byName == Merge(old(byName), mf)
    {
      if mf.name == "" {
        return;
      }
      if mf.name !in byName {
        byName := byName[mf.name := mf];
        return;
      }
      var existing := byName[mf.name];
      if existing.kind != mf.kind {
        return;
      }
      byName := byName[mf.name := existing.(series := existing.series + mf.series)];
    }

    /** Every merged family once, in ascending order of names. */
    method Families() returns (out: seq<Family>)
      requires Valid()
      ensures Names.Ascending(out, FamilyName)
      ensures forall f :: f in out <==> f.name in byName && byName[f.name] == f
    {
      var all: seq<Family>, rest := [], byName.Keys;
      while rest != {}
        invariant rest <= byName.Keys
        invariant forall f :: f in all <==> f.name in byName && f.name !in rest && byName[f.name] == f
        invariant Names.Distinct(all, FamilyName)
        decreases rest
      {
        var n :| n in rest;
        all := all + [byName[n]];
        rest := rest - {n};
      }
      out := Names.SortByName(all, FamilyName);
      Names.DistinctExactly(all, FamilyName);
      Names.DistinctExactly(out, FamilyName);
      Names.DistinctOrdered(out, FamilyName);
      assert forall f :: f in out <==> f in multiset(out);
      assert forall f :: f in all <==> f in multiset(all);
    }
  }

  // What the merge gathers, said directly.

  /** The type of the first family of this name. */
  function FirstKind(fs: seq<Family>, name: string): Option<nat> {
    if fs == [] then None
    else if fs[0].name == name then Some(fs[0].kind)
    else FirstKind(fs[1..], name)
  }

  /** All series of families of this name and type. */
  function Gathered(fs: seq<Family>, name: string, kind: nat): multiset<Series> {
    if fs == [] then multiset{}
    else Gathered(fs[..|fs| - 1], name, kind) + Contribution(fs[|fs| - 1], name, kind)
  }

  function Contribution(f: Family, name: string, kind: nat): multiset<Series> {
    if f.name == name && f.kind == kind then multiset(f.series) else multiset{}
  }

  lemma {:induction false} FirstKindAppend(fs: seq<Family>, f: Family, name: string)
    ensures FirstKind(fs + [f], name)
         == if FirstKind(fs, name).Some? then FirstKind(fs, name) else if f.name == name then Some(f.kind) else None
  {
    if fs == [] {
      assert [] + [f] == [f];
    } else {
      FirstKindAppend(fs[1..], f, name);
      assert (fs + [f])[1..] == fs[1..] + [f];
    }
  }

  lemma {:induction false} NoneGathered(fs: seq<Family>, name: string, kind: nat)
    requires FirstKind(fs, name) == None
    ensures Gathered(fs, name, kind) == multiset{}
  {
    if fs != [] {
      var before, f := fs[..|fs| - 1], fs[|fs| - 1];
      assert fs == before + [f];
      FirstKindAppend(before, f, name);
      NoneGathered(before, name, kind);
    }
  }

  /** What the merged map says about one name. */
  ghost predicate Describes(m: Merged, name: string, kind: Option<nat>, fs: seq<Family>) {
    match kind
    case None => name !in m
    case Some(k) => name in m && m[name].name == name && m[name].kind == k && multiset(m[name].series) == Gathered(fs, name, k)
  }

  lemma DescribesNext(m: Merged, fs: seq<Family>, f: Family, name: string)
    requires name != "" && Describes(m, name, FirstKind(fs, name), fs)
    ensures Describes(Merge(m, f), name, FirstKind(fs + [f], name), fs + [f])
  {
    FirstKindAppend(fs, f, name);
    assert (fs + [f])[..|fs|] == fs;
    if FirstKind(fs, name).None? {
      NoneGathered(fs, name, f.kind);
    }
  }

  /**
   Whatever arrives, in whatever order: a name is in the result if and only if some family has it and it
   is not empty; its type is that of the first family of that name, and its series are exactly those of
   the families of that name and type.
   */
  lemma {:induction false} MergeGathers(fs: seq<Family>, name: string)
    requires name != ""
    ensures Describes(AddAll(fs), name, FirstKind(fs, name), fs)
  {
    if fs != [] {
      var before, f := fs[..|fs| - 1], fs[|fs| - 1];
      assert fs == before + [f];
      MergeGathers(before, name);
      DescribesNext(AddAll(before), before, f, name);
    }
  }

  lemma {:induction false} EmptyNameIgnored(fs: seq<Family>)
    ensures "" !in AddAll(fs)
  {
    if fs != [] {
      EmptyNameIgnored(fs[..|fs| - 1]);
    }
  }

  // Order.

  /** How often one series is gathered. */
  function Tally(fs: seq<Family>, name: string, kind: nat, x: Series): nat {
    if fs == [] then 0
    else Tally(fs[..|fs| - 1], name, kind, x) + Times(fs[|fs| - 1], name, kind, x)
  }

  function Times(f: Family, name: string, kind: nat, x: Series): nat {
    Contribution(f, name, kind)[x]
  }

  lemma {:induction false} GatheredTally(fs: seq<Family>, name: string, kind: nat, x: Series)
    ensures Gathered(fs, name, kind)[x] == Tally(fs, name, kind, x)
  {
    if fs != [] {
      GatheredTally(fs[..|fs| - 1], name, kind, x);
    }
  }

  function Without(fs: seq<Family>, i: nat): seq<Family>
    requires i < |fs|
  {
    fs[..i] + fs[i + 1..]
  }

  /** Taking one family out takes its contribution out. */
  lemma {:induction false} TallyWithout(fs: seq<Family>, i: nat, name: string, kind: nat, x: Series)
    requires i < |fs|
    ensures Tally(fs, name, kind, x) == Tally(Without(fs, i), name, kind, x) + Times(fs[i], name, kind, x)
  {
    var n := |fs| - 1;
    if i == n {
      assert Without(fs, i) == fs[..n];
    } else {
      TallyWithout(fs[..n], i, name, kind, x);
      var rest := Without(fs, i);
      assert rest[..n - 1] == Without(fs[..n], i) && rest[n - 1] == fs[n];
    }
  }

  lemma WithoutElements(fs: seq<Family>, i: nat)
    requires i < |fs|
    ensures multiset(Without(fs, i)) == multiset(fs) - multiset{fs[i]}
  {
    Names.Occurrence(fs, i);
    var rest := multiset(fs[..i]) + multiset(fs[i + 1..]);
    assert multiset(fs) == rest + multiset{fs[i]};
    assert multiset(Without(fs, i)) == rest;
  }

  lemma {:induction false} TallyPermutes(fs: seq<Family>, gs: seq<Family>, name: string, kind: nat, x: Series)
    requires multiset(fs) == multiset(gs)
    ensures Tally(fs, name, kind, x) == Tally(gs, name, kind, x)
    decreases |fs|
  {
    Names.SameLength(fs, gs);
    if fs != [] {
      assert fs[0] in multiset(gs);
      var i: nat :| i < |gs| && gs[i] == fs[0];
      WithoutElements(fs, 0);
      WithoutElements(gs, i);
      TallyWithout(fs, 0, name, kind, x);
      TallyWithout(gs, i, name, kind, x);
      TallyPermutes(Without(fs, 0), Without(gs, i), name, kind, x);
    }
  }

  lemma GatheredPermutes(fs: seq<Family>, gs: seq<Family>, name: string, kind: nat)
    requires multiset(fs) == multiset(gs)
    ensures Gathered(fs, name, kind) == Gathered(gs, name, kind)
  {
    forall x: Series
      ensures Gathered(fs, name, kind)[x] == Gathered(gs, name, kind)[x]
    {
      GatheredTally(fs, name, kind, x);
      GatheredTally(gs, name, kind, x);
      TallyPermutes(fs, gs, name, kind, x);
    }
  }

  ghost predicate Agree(fs: seq<Family>, name: string) {
    forall f, g | f in fs && g in fs && f.name == name && g.name == name :: f.kind == g.kind
  }

  lemma {:induction false} FirstKindOf(fs: seq<Family>, name: string)
    ensures FirstKind(fs, name).None? ==> forall f | f in fs :: f.name != name
    ensures FirstKind(fs, name).Some? ==> exists f :: f in fs && f.name == name && FirstKind(fs, name) == Some(f.kind)
  {
    if fs != [] {
      FirstKindOf(fs[1..], name);
      assert fs == [fs[0]] + fs[1..];
    }
  }

  /** The same name, type and series, whatever the order of the series. */
  ghost predicate Same(m: Merged, m': Merged, name: string) {
    && (name in m <==> name in m')
    && (name in m ==> m[name].kind == m'[name].kind && multiset(m[name].series) == multiset(m'[name].series))
  }

  /** No order of arrival changes what is said about this name. */
  ghost predicate OrderIrrelevant(fs: seq<Family>, name: string) {
    forall gs | multiset(gs) == multiset(fs) :: Same(AddAll(fs), AddAll(gs), name)
  }

  lemma AgreeingKind(fs: seq<Family>, gs: seq<Family>, name: string)
    requires multiset(gs) == multiset(fs) && Agree(fs, name)
    ensures FirstKind(fs, name) == FirstKind(gs, name)
  {
    FirstKindOf(fs, name);
    FirstKindOf(gs, name);
    assert forall f :: f in fs <==> f in multiset(fs);
    assert forall f :: f in gs <==> f in multiset(gs);
  }

  lemma AgreeingOrder(fs: seq<Family>, gs: seq<Family>, name: string)
    requires name != "" && multiset(gs) == multiset(fs) && Agree(fs, name)
    ensures Same(AddAll(fs), AddAll(gs), name)
  {
    AgreeingKind(fs, gs, name);
    MergeGathers(fs, name);
    MergeGathers(gs, name);
    if FirstKind(fs, name).Some? {
      GatheredPermutes(fs, gs, name, FirstKind(fs, name).value);
    }
  }

  /** Two families of one name and different types: whichever arrives first decides. */
  lemma DisagreeingOrder(fs: seq<Family>, name: string) returns (gs: seq<Family>)
    requires name != "" && !Agree(fs, name)
    ensures multiset(gs) == multiset(fs) && !Same(AddAll(fs), AddAll(gs), name)
  {
    FirstKindOf(fs, name);
    var f :| f in fs && f.name == name && FirstKind(fs, name) != Some(f.kind);
    var i: nat :| i < |fs| && fs[i] == f;
    gs := [f] + fs[..i] + fs[i + 1..];
    Names.Occurrence(fs, i);
    assert FirstKind(gs, name) == Some(f.kind);
    MergeGathers(fs, name);
    MergeGathers(gs, name);
  }

  /** Exactly: the order of arrival is irrelevant to a name if and only if its families agree on the type. */
  lemma OrderIrrelevantExactly(fs: seq<Family>, name: string)
    ensures OrderIrrelevant(fs, name) <==> name == "" || Agree(fs, name)
  {
    if name == "" {
      forall gs | multiset(gs) == multiset(fs)
        ensures Same(AddAll(fs), AddAll(gs), name)
      {
        EmptyNameIgnored(fs);
        EmptyNameIgnored(gs);
      }
    } else if Agree(fs, name) {
      forall gs | multiset(gs) == multiset(fs)
        ensures Same(AddAll(fs), AddAll(gs), name)
      {
        AgreeingOrder(fs, gs, name);
      }
    } else {
      var gs := DisagreeingOrder(fs, name);
    }
  }
}
