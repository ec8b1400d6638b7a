/** The migration readiness report: the search for TODO/TBD markers, the
    readiness score, the structural blockers of sources and queries, and the
    markdown summary built from them. */
module Readiness {
  import opened Strings
  import opened Mapping

  // ---------------------------------------------------------------- markers

  /** A string marks unfinished work when its lower-case form contains `todo`
      or `tbd`. */
  predicate Marked(s: string)
  {
    var lowered := Lower(s);
    Contains(lowered, "todo") || Contains(lowered, "tbd")
  }

  /** `contains_todo`: strings are searched for a marker, lists through their
      items and objects through their values, never their keys; any other
      scalar holds none. */
  predicate ContainsTodo(v: Value)
  {
    match v
    case Str(s) => Marked(s)
    case Lst(xs) => exists i | 0 <= i < |xs| :: ContainsTodo(xs[i])
    case Obj(fs) => exists i | 0 <= i < |fs| :: ContainsTodo(fs[i].1)
    case _ => false
  }

  /** The values of an object, in key order. */
  function Values(fs: Fields): (r: seq<Value>)
    ensures |r| == |fs|
    ensures forall i :: 0 <= i < |fs| ==> r[i] == fs[i].1
  {
    if fs == [] then [] else Values(fs[..|fs| - 1]) + [fs[|fs| - 1].1]
  }

  /** An object holds a marker exactly when the list of its values does: keys
      are never searched. */
  lemma ObjectSearchesValues(fs: Fields)
    ensures ContainsTodo(Obj(fs)) <==> ContainsTodo(Lst(Values(fs)))
  {
    var vs := Values(fs);
    if ContainsTodo(Obj(fs)) {
      var i :| 0 <= i < |fs| && ContainsTodo(fs[i].1);
      assert ContainsTodo(vs[i]);
    }
    if ContainsTodo(Lst(vs)) {
      var i :| 0 <= i < |vs| && ContainsTodo(vs[i]);
      assert ContainsTodo(fs[i].1);
    }
  }

  /** A list holds a marker exactly when one of its two halves does. */
  lemma ListSearchSplits(xs: seq<Value>, ys: seq<Value>)
    ensures ContainsTodo(Lst(xs + ys)) <==> ContainsTodo(Lst(xs)) || ContainsTodo(Lst(ys))
  {
    var zs := xs + ys;
    if ContainsTodo(Lst(zs)) {
      var i :| 0 <= i < |zs| && ContainsTodo(zs[i]);
      if i < |xs| {
        assert zs[i] == xs[i];
      } else {
        assert zs[i] == ys[i - |xs|];
      }
    }
    if ContainsTodo(Lst(xs)) {
      var i :| 0 <= i < |xs| && ContainsTodo(xs[i]);
      assert zs[i] == xs[i];
    }
    if ContainsTodo(Lst(ys)) {
      var i :| 0 <= i < |ys| && ContainsTodo(ys[i]);
      assert zs[|xs| + i] == ys[i];
    }
  }

  /** The search ignores case: lower-casing the text first changes nothing. */
  lemma MarkedIgnoresCase(s: string)
    ensures Marked(Lower(s)) <==> Marked(s)
  {
    LowerIdempotent(s);
  }

  lemma LowerIdempotent(s: string)
    ensures Lower(Lower(s)) == Lower(s)
  {
    var t := Lower(s);
    forall i | 0 <= i < |s| ensures Lower(t)[i] == t[i] {
      assert LowerChar(t[i]) == t[i];
    }
  }

  /** The strings `contains_todo` reads, in document order: each string
      reachable through list items and object values, at any depth. Keys and
      the other scalars contribute none. */
  function Leaves(v: Value): seq<string>
  {
    match v
    case Str(s) => [s]
    case Lst(xs) => Concat(seq(|xs|, i requires 0 <= i < |xs| => Leaves(xs[i])))
    case Obj(fs) => Concat(seq(|fs|, i requires 0 <= i < |fs| => Leaves(fs[i].1)))
    case _ => []
  }

  function Concat(ss: seq<seq<string>>): seq<string>
  {
    if ss == [] then [] else ss[0] + Concat(ss[1..])
  }

  lemma {:induction false} InConcat(ss: seq<seq<string>>, s: string)
    ensures s in Concat(ss) <==> exists i :: 0 <= i < |ss| && s in ss[i]
  {
    if ss != [] {
      InConcat(ss[1..], s);
      if exists i :: 0 <= i < |ss[1..]| && s in ss[1..][i] {
        var i :| 0 <= i < |ss[1..]| && s in ss[1..][i];
        assert s in ss[i + 1];
      }
      if exists i :: 0 <= i < |ss| && s in ss[i] {
        var i :| 0 <= i < |ss| && s in ss[i];
        if i > 0 {
          assert s in ss[1..][i - 1];
        }
      }
    }
  }

  /** The search finds a marker exactly when one of the strings it reads is
      marked: the recursion looks at every string leaf and at nothing else. */
  lemma {:induction false} ContainsTodoLeaves(v: Value)
    ensures ContainsTodo(v) <==> exists s :: s in Leaves(v) && Marked(s)
    decreases v
  {
    match v
    case Str(s) =>
    case Lst(xs) =>
      var ss := seq(|xs|, i requires 0 <= i < |xs| => Leaves(xs[i]));
      forall i | 0 <= i < |xs| ensures ContainsTodo(xs[i]) <==> exists s :: s in ss[i] && Marked(s) {
        ContainsTodoLeaves(xs[i]);
      }
      ChildrenLeaves(ss, xs);
    case Obj(fs) =>
      var vs := Values(fs);
      var ss := seq(|fs|, i requires 0 <= i < |fs| => Leaves(fs[i].1));
      forall i | 0 <= i < |fs| ensures ContainsTodo(vs[i]) <==> exists s :: s in ss[i] && Marked(s) {
        ContainsTodoLeaves(fs[i].1);
      }
      ObjectSearchesValues(fs);
      ChildrenLeaves(ss, vs);
    case _ =>
  }

  /** One level of the search: some child holds a marker exactly when the
      concatenation of the children's leaves holds a marked string. */
  lemma ChildrenLeaves(ss: seq<seq<string>>, xs: seq<Value>)
    requires |ss| == |xs|
    requires forall i :: 0 <= i < |xs| ==> (ContainsTodo(xs[i]) <==> exists s :: s in ss[i] && Marked(s))
    ensures ContainsTodo(Lst(xs)) <==> exists s :: s in Concat(ss) && Marked(s)
  {
    if ContainsTodo(Lst(xs)) {
      var i :| 0 <= i < |xs| && ContainsTodo(xs[i]);
      var s :| s in ss[i] && Marked(s);
      InConcat(ss, s);
    }
    if exists s :: s in Concat(ss) && Marked(s) {
      var s :| s in Concat(ss) && Marked(s);
      InConcat(ss, s);
      var i :| 0 <= i < |ss| && s in ss[i];
      assert ContainsTodo(xs[i]);
    }
  }

  /** A marker nested in a value of an object is found, and a marker-like key
      is not. */
  lemma ContainsTodoExamples()
    ensures ContainsTodo(Obj([("owner", Str("TBD"))]))
    ensures !ContainsTodo(Obj([("todo", Int(1))]))
    ensures !ContainsTodo(Lst([Null, Bool(true), Int(0)]))
  {
    assert Lower("TBD") == "tbd";
    assert IsPrefix("tbd", Lower("TBD")[0..]);
    assert Marked("TBD");
    assert ContainsTodo(Str("TBD"));
    var fs := [("owner", Str("TBD"))];
    assert ContainsTodo(fs[0].1);
    var gs := [("todo", Int(1))];
    assert !ContainsTodo(gs[0].1);
  }

  // ---------------------------------------------------------------- lists

  /** `safe_list`: a list stays as it is, anything else reads as empty. */
  function SafeList(v: Value): (r: seq<Value>)
  {
    if v.Lst? then v.items else []
  }

  /** Where iteration would walk a list, `safe_list` gives the same items;
      where iteration would fail, and also for strings and objects, it gives
      nothing, so the report never fails on a malformed section. */
  lemma SafeListSpec(v: Value)
    ensures v.Lst? ==> Iterate(v) == Success(SafeList(v))
    ensures !v.Lst? ==> SafeList(v) == []
    ensures Iterate(v).Failure? ==> SafeList(v) == []
  {
  }

  /** The entries of a section that are objects, in order; the others are
      dropped. */
  function Objects(vs: seq<Value>): (r: seq<Fields>)
    ensures |r| <= |vs|
  {
    if vs == [] then []
    else Objects(vs[..|vs| - 1]) + (if vs[|vs| - 1].Obj? then [vs[|vs| - 1].fields] else [])
  }

  /** Filtering distributes over concatenation: retained entries keep their
      order. */
  lemma {:induction false} ObjectsConcat(xs: seq<Value>, ys: seq<Value>)
    ensures Objects(xs + ys) == Objects(xs) + Objects(ys)
    decreases |ys|
  {
    if ys == [] {
      assert xs + ys == xs;
    } else {
      var init := ys[..|ys| - 1];
      ObjectsConcat(xs, init);
      assert (xs + ys)[..|xs + ys| - 1] == xs + init;
      assert (xs + ys)[|xs + ys| - 1] == ys[|ys| - 1];
    }
  }

  /** The filter keeps exactly the objects: every retained entry is one of the
      objects, and every object is retained. */
  lemma {:induction false} ObjectsMembers(vs: seq<Value>)
    ensures forall fs :: fs in Objects(vs) <==> Obj(fs) in vs
    decreases |vs|
  {
    if vs != [] {
      var init := vs[..|vs| - 1];
      ObjectsMembers(init);
      assert vs == init + [vs[|vs| - 1]];
    }
  }

  /** A list of objects passes the filter whole. */
  lemma {:induction false} ObjectsKeepsObjects(vs: seq<Value>)
    requires forall i :: 0 <= i < |vs| ==> vs[i].Obj?
    ensures |Objects(vs)| == |vs|
    ensures forall i :: 0 <= i < |vs| ==> Objects(vs)[i] == vs[i].fields
    decreases |vs|
  {
    if vs != [] {
      ObjectsKeepsObjects(vs[..|vs| - 1]);
    }
  }

  // ---------------------------------------------------------------- score

  function Min(a: int, b: int): int { if a < b then a else b }

  function Max(a: int, b: int): int { if a < b then b else a }

  /** The coverage term: 30 points scaled by the share of inventory tables
      that are mapped, rounded down; 15 points when there is no inventory. */
  function CoveragePoints(mapped: set<string>, inventory: set<string>): int
  {
    if inventory != {} then (30 * |mapped * inventory|) / Max(|inventory|, 1) else 15
  }

  /** Two points off per TODO marker, at most 20. */
  function TodoPoints(todo: int): int
  {
    Max(0, 20 - Min(20, todo * 2))
  }

  /** Three points off per blocker, at most 10. */
  function BlockerPoints(missing: int): int
  {
    Max(0, 10 - Min(10, missing * 3))
  }

  /** The sum of the five terms, before clamping. */
  function RawScore(sourceCount: int, queryCount: int, mapped: set<string>, inventory: set<string>,
                    todo: int, missing: int): int
  {
    (if sourceCount > 0 then 20 else 0) + (if queryCount > 0 then 20 else 0)
    + CoveragePoints(mapped, inventory) + TodoPoints(todo) + BlockerPoints(missing)
  }

  /** `readiness_score`: the sum clamped to 0..100. */
  function Score(sourceCount: int, queryCount: int, mapped: set<string>, inventory: set<string>,
                 todo: int, missing: int): int
  {
    Max(0, Min(100, RawScore(sourceCount, queryCount, mapped, inventory, todo, missing)))
  }

  /** `readiness_score` as written, adding up its terms one by one. */
  method ReadinessScore(sourceCount: int, queryCount: int, mapped: set<string>, inventory: set<string>,
                        todo: int, missing: int) returns (score: int)
    ensures score == Score(sourceCount, queryCount, mapped, inventory, todo, missing)
    ensures 0 <= score <= 100
  {
    score := 0;
    if sourceCount > 0 {
      score := score + 20;
    }
    if queryCount > 0 {
      score := score + 20;
    }
    if inventory != {} {
      var covered := |mapped * inventory|;
      score := score + (30 * covered) / Max(|inventory|, 1);
    } else {
      score := score + 15;
    }
    score := score + Max(0, 20 - Min(20, todo * 2));
    score := score + Max(0, 10 - Min(10, missing * 3));
    score := Max(0, Min(100, score));
  }

  /** Only part of the inventory can be covered. */
  lemma CoveredBound(mapped: set<string>, inventory: set<string>)
    ensures |mapped * inventory| <= |inventory|
  {
    var common := mapped * inventory;
    var rest := inventory - mapped;
    assert inventory == common + rest;
    assert common * rest == {};
  }

  /** With counts that cannot be negative the terms already add up to at most
      100, so the clamp never changes the score. */
  lemma RawScoreInRange(sourceCount: int, queryCount: int, mapped: set<string>, inventory: set<string>,
                        todo: int, missing: int)
    requires todo >= 0 && missing >= 0
    ensures 0 <= RawScore(sourceCount, queryCount, mapped, inventory, todo, missing) <= 100
    ensures Score(sourceCount, queryCount, mapped, inventory, todo, missing)
            == RawScore(sourceCount, queryCount, mapped, inventory, todo, missing)
  {
    CoveragePointsRange(mapped, inventory);
  }

  /** The coverage term lies in 0..30. */
  lemma CoveragePointsRange(mapped: set<string>, inventory: set<string>)
    ensures 0 <= CoveragePoints(mapped, inventory) <= 30
  {
    if inventory != {} {
      CoveredBound(mapped, inventory);
      assert Max(|inventory|, 1) == |inventory|;
      ScaledShare(|mapped * inventory|, |inventory|);
    }
  }

  /** Thirty points scaled by a share of at most one, rounded down. */
  lemma ScaledShare(c: int, n: int)
    requires 0 <= c <= n && n > 0
    ensures 0 <= (30 * c) / n <= 30
  {
    DivMonotone(30 * c, 30 * n, n);
    assert (30 * n) / n == 30;
  }

  lemma DivMonotone(a: int, b: int, n: int)
    requires 0 <= a <= b && n > 0
    ensures a / n <= b / n
  {
    var qa, qb := a / n, b / n;
    if qa > qb {
      MulMonotone(n, qb + 1, qa);
    }
  }

  lemma MulMonotone(n: nat, x: int, y: int)
    requires x <= y
    ensures n * x <= n * y
  {
    assert n * y - n * x == n * (y - x);
  }

  /** Covering more of the same inventory never lowers the score. */
  lemma ScoreMonotoneInCoverage(sourceCount: int, queryCount: int, mapped: set<string>, more: set<string>,
                                inventory: set<string>, todo: int, missing: int)
    requires |mapped * inventory| <= |more * inventory|
    ensures Score(sourceCount, queryCount, mapped, inventory, todo, missing)
            <= Score(sourceCount, queryCount, more, inventory, todo, missing)
  {
    if inventory != {} {
      DivMonotone(30 * |mapped * inventory|, 30 * |more * inventory|, |inventory|);
    }
  }

  /** More TODO markers never raise the score. */
  lemma ScoreAntitoneInTodo(sourceCount: int, queryCount: int, mapped: set<string>, inventory: set<string>,
                            todo: int, more: int, missing: int)
    requires todo <= more
    ensures Score(sourceCount, queryCount, mapped, inventory, more, missing)
            <= Score(sourceCount, queryCount, mapped, inventory, todo, missing)
  {
  }

  /** More blockers never raise the score. */
  lemma ScoreAntitoneInBlockers(sourceCount: int, queryCount: int, mapped: set<string>, inventory: set<string>,
                                todo: int, missing: int, more: int)
    requires missing <= more
    ensures Score(sourceCount, queryCount, mapped, inventory, todo, more)
            <= Score(sourceCount, queryCount, mapped, inventory, todo, missing)
  {
  }

  /** Mapping every inventory table earns the full 30 coverage points. */
  lemma FullCoverage(mapped: set<string>, inventory: set<string>)
    requires inventory != {} && inventory <= mapped
    ensures CoveragePoints(mapped, inventory) == 30
  {
    assert mapped * inventory == inventory;
  }

  /** An empty document with no inventory scores 45; a complete one whose only
      table is the inventory scores 100. */
  lemma ScoreExamples()
    ensures Score(0, 0, {}, {}, 0, 0) == 45
    ensures Score(1, 1, {"orders"}, {"orders"}, 0, 0) == 100
  {
    FullCoverage({"orders"}, {"orders"});
  }

  // ---------------------------------------------------------------- blockers

  /** The name a blocker quotes, `unknown` when the key is absent: a name that
      is present but empty or null is quoted as it is. */
  function Label(d: Fields): string
  {
    Text(FieldOr(d, "name", Str("unknown")))
  }

  /** The texts of the five blockers. */
  function SourceNameMissing(): string { "Source missing `name`." }

  function SourceTableMissing(src: Fields): string { "Source `" + Label(src) + "` missing `table`." }

  function SourceMeasuresMissing(src: Fields): string { "Source `" + Label(src) + "` has no measures." }

  function QueryNameMissing(): string { "Query missing `name`." }

  function QueryFromMissing(q: Fields): string { "Query `" + Label(q) + "` missing `from`." }

  /** The blockers of one source, in order: a falsy `name`, a falsy `table`,
      and a `measures` that is not a non-empty list. */
  function SourceBlockers(src: Fields): seq<string>
  {
    (if !Truthy(Field(src, "name")) then [SourceNameMissing()] else [])
    + (if !Truthy(Field(src, "table")) then [SourceTableMissing(src)] else [])
    + (if SafeList(Field(src, "measures")) == [] then [SourceMeasuresMissing(src)] else [])
  }

  /** The blockers of one query, in order: a falsy `name`, a falsy `from`. */
  function QueryBlockers(q: Fields): seq<string>
  {
    (if !Truthy(Field(q, "name")) then [QueryNameMissing()] else [])
    + (if !Truthy(Field(q, "from")) then [QueryFromMissing(q)] else [])
  }

  /** A source has between none and three blockers, and none exactly when it
      has a name, a table and at least one measure. */
  lemma SourceBlockersSpec(src: Fields)
    ensures |SourceBlockers(src)| <= 3
    ensures SourceBlockers(src) == [] <==>
              Truthy(Field(src, "name")) && Truthy(Field(src, "table")) && SafeList(Field(src, "measures")) != []
  {
  }

  /** A query has at most two blockers, and none exactly when it has a name
      and a `from`. */
  lemma QueryBlockersSpec(q: Fields)
    ensures |QueryBlockers(q)| <= 2
    ensures QueryBlockers(q) == [] <==> Truthy(Field(q, "name")) && Truthy(Field(q, "from"))
  {
  }

  /** The blockers of each definition, one definition after another. */
  function Gather(f: Fields -> seq<string>, ds: seq<Fields>): seq<string>
  {
    if ds == [] then [] else Gather(f, ds[..|ds| - 1]) + f(ds[|ds| - 1])
  }

  /** `collect_blockers`: every source's blockers, then every query's. */
  function AllBlockers(sources: seq<Fields>, queries: seq<Fields>): seq<string>
  {
    Gather(SourceBlockers, sources) + Gather(QueryBlockers, queries)
  }

  /** `collect_blockers` as written: two loops appending to one list, with no
      early exit. */
  method CollectBlockers(sources: seq<Fields>, queries: seq<Fields>) returns (blockers: seq<string>)
    ensures blockers == AllBlockers(sources, queries)
  {
    blockers := [];
    for i := 0 to |sources|
      invariant blockers == Gather(SourceBlockers, sources[..i])
    {
      blockers := CheckSource(blockers, sources[i]);
      GatherStep(SourceBlockers, sources, i);
    }
    assert sources[..|sources|] == sources;
    var fromSources := blockers;
    for i := 0 to |queries|
      invariant blockers == fromSources + Gather(QueryBlockers, queries[..i])
    {
      var q := queries[i];
      blockers := CheckQuery(blockers, q);
      GatherStep(QueryBlockers, queries, i);
      AppendAssoc(fromSources, Gather(QueryBlockers, queries[..i]), QueryBlockers(q));
    }
    assert queries[..|queries|] == queries;
  }

  lemma AppendAssoc<T>(a: seq<T>, b: seq<T>, c: seq<T>)
    ensures a + b + c == a + (b + c)
  {
  }

  /** The body of the loop over sources: up to three appends. */
  method CheckSource(blockers: seq<string>, src: Fields) returns (out: seq<string>)
    ensures out == blockers + SourceBlockers(src)
  {
    out := blockers;
    if !Truthy(Field(src, "name")) {
      out := out + [SourceNameMissing()];
    }
    if !Truthy(Field(src, "table")) {
      out := out + [SourceTableMissing(src)];
    }
    if SafeList(Field(src, "measures")) == [] {
      out := out + [SourceMeasuresMissing(src)];
    }
  }

  /** The body of the loop over queries: up to two appends. */
  method CheckQuery(blockers: seq<string>, q: Fields) returns (out: seq<string>)
    ensures out == blockers + QueryBlockers(q)
  {
    out := blockers;
    if !Truthy(Field(q, "name")) {
      out := out + [QueryNameMissing()];
    }
    if !Truthy(Field(q, "from")) {
      out := out + [QueryFromMissing(q)];
    }
  }

  lemma GatherStep(f: Fields -> seq<string>, ds: seq<Fields>, i: nat)
    requires i < |ds|
    ensures Gather(f, ds[..i + 1]) == Gather(f, ds[..i]) + f(ds[i])
  {
    assert ds[..i + 1][..i] == ds[..i];
  }

  /** Gathering keeps definition order: the blockers of `xs + ys` are those of
      `xs` followed by those of `ys`. */
  lemma {:induction false} GatherConcat(f: Fields -> seq<string>, xs: seq<Fields>, ys: seq<Fields>)
    ensures Gather(f, xs + ys) == Gather(f, xs) + Gather(f, ys)
    decreases |ys|
  {
    if ys == [] {
      assert xs + ys == xs;
    } else {
      var init := ys[..|ys| - 1];
      GatherConcat(f, xs, init);
      assert (xs + ys)[..|xs + ys| - 1] == xs + init;
      assert (xs + ys)[|xs + ys| - 1] == ys[|ys| - 1];
    }
  }

  /** No blockers at all exactly when no definition has any. */
  lemma {:induction false} GatherEmpty(f: Fields -> seq<string>, ds: seq<Fields>)
    ensures Gather(f, ds) == [] <==> forall i :: 0 <= i < |ds| ==> f(ds[i]) == []
    decreases |ds|
  {
    if ds != [] {
      GatherEmpty(f, ds[..|ds| - 1]);
    }
  }

  /** At most `k` blockers per definition. */
  lemma {:induction false} GatherBound(f: Fields -> seq<string>, ds: seq<Fields>, k: nat)
    requires forall i :: 0 <= i < |ds| ==> |f(ds[i])| <= k
    ensures |Gather(f, ds)| <= k * |ds|
    decreases |ds|
  {
    if ds != [] {
      GatherBound(f, ds[..|ds| - 1], k);
    }
  }

  /** Every message of every definition carries the prefix `p`. */
  lemma {:induction false} GatherPrefix(f: Fields -> seq<string>, ds: seq<Fields>, p: string)
    requires forall i :: 0 <= i < |ds| ==> forall m :: m in f(ds[i]) ==> IsPrefix(p, m)
    ensures forall m :: m in Gather(f, ds) ==> IsPrefix(p, m)
    decreases |ds|
  {
    if ds != [] {
      GatherPrefix(f, ds[..|ds| - 1], p);
    }
  }

  lemma SourceMessages(src: Fields)
    ensures forall m :: m in SourceBlockers(src) ==> IsPrefix("Source ", m)
  {
    var quoted := Label(src);
    assert IsPrefix("Source ", "Source `");
    PrefixKept("Source ", "Source `", quoted);
    PrefixKept("Source ", "Source `" + quoted, "` missing `table`.");
    PrefixKept("Source ", "Source `" + quoted, "` has no measures.");
    assert IsPrefix("Source ", SourceNameMissing());
  }

  lemma QueryMessages(q: Fields)
    ensures forall m :: m in QueryBlockers(q) ==> IsPrefix("Query ", m)
  {
    var quoted := Label(q);
    assert IsPrefix("Query ", "Query `");
    PrefixKept("Query ", "Query `", quoted);
    PrefixKept("Query ", "Query `" + quoted, "` missing `from`.");
    assert IsPrefix("Query ", QueryNameMissing());
  }

  /** The blockers come source blockers first: the first
      `|Gather(SourceBlockers, sources)|` are about sources, all later ones
      about queries. */
  lemma BlockersOrdered(sources: seq<Fields>, queries: seq<Fields>)
    ensures var b := AllBlockers(sources, queries);
            forall i :: 0 <= i < |b| ==>
              (i < |Gather(SourceBlockers, sources)| <==> IsPrefix("Source ", b[i]))
  {
    forall i | 0 <= i < |sources| ensures forall m :: m in SourceBlockers(sources[i]) ==> IsPrefix("Source ", m) {
      SourceMessages(sources[i]);
    }
    forall i | 0 <= i < |queries| ensures forall m :: m in QueryBlockers(queries[i]) ==> IsPrefix("Query ", m) {
      QueryMessages(queries[i]);
    }
    GatherPrefix(SourceBlockers, sources, "Source ");
    GatherPrefix(QueryBlockers, queries, "Query ");
    var s, q := Gather(SourceBlockers, sources), Gather(QueryBlockers, queries);
    forall i | 0 <= i < |s + q| ensures i < |s| <==> IsPrefix("Source ", (s + q)[i]) {
      SplitByPrefix(s, q, i);
    }
  }

  /** In `s + q`, where every message of `s` starts with `Source ` and every
      message of `q` with `Query `, the position tells which part a message
      comes from. */
  lemma SplitByPrefix(s: seq<string>, q: seq<string>, i: nat)
    requires forall m :: m in s ==> IsPrefix("Source ", m)
    requires forall m :: m in q ==> IsPrefix("Query ", m)
    requires i < |s + q|
    ensures i < |s| <==> IsPrefix("Source ", (s + q)[i])
  {
    if i < |s| {
      assert (s + q)[i] == s[i] && s[i] in s;
    } else {
      var m := q[i - |s|];
      assert (s + q)[i] == m && m in q;
      assert m[0] == 'Q';
    }
  }

  /** A document whose every source is complete and every query has a name
      and a `from` has no blockers; each source adds at most three and each
      query at most two. */
  lemma AllBlockersSpec(sources: seq<Fields>, queries: seq<Fields>)
    ensures AllBlockers(sources, queries) == [] <==>
              && (forall i :: 0 <= i < |sources| ==> SourceBlockers(sources[i]) == [])
              && (forall i :: 0 <= i < |queries| ==> QueryBlockers(queries[i]) == [])
    ensures |AllBlockers(sources, queries)| <= 3 * |sources| + 2 * |queries|
  {
    GatherEmpty(SourceBlockers, sources);
    GatherEmpty(QueryBlockers, queries);
    forall i | 0 <= i < |sources| ensures |SourceBlockers(sources[i])| <= 3 {
      SourceBlockersSpec(sources[i]);
    }
    forall i | 0 <= i < |queries| ensures |QueryBlockers(queries[i])| <= 2 {
      QueryBlockersSpec(queries[i]);
    }
    GatherBound(SourceBlockers, sources, 3);
    GatherBound(QueryBlockers, queries, 2);
  }

  // ---------------------------------------------------------------- summary

  /** The retained sources: the objects of a `sources` list. */
  function Sources(mapping: Fields): seq<Fields>
  {
    Objects(SafeList(Field(mapping, "sources")))
  }

  function Queries(mapping: Fields): seq<Fields>
  {
    Objects(SafeList(Field(mapping, "queries")))
  }

  /** The set of the tables of the sources whose `table` is truthy, each as
      its text. */
  function MappedTables(sources: seq<Fields>): set<string>
  {
    if sources == [] then {}
    else
      var src := sources[|sources| - 1];
      MappedTables(sources[..|sources| - 1])
      + (if Truthy(Field(src, "table")) then {Text(Field(src, "table"))} else {})
  }

  /** The source names `t` as its (truthy) table. */
  predicate MapsTable(src: Fields, t: string)
  {
    Truthy(Field(src, "table")) && Text(Field(src, "table")) == t
  }

  /** A table is mapped exactly when some source names it as a truthy
      `table`; there are no more mapped tables than sources. */
  lemma MappedTablesSpec(sources: seq<Fields>)
    ensures forall t :: t in MappedTables(sources) <==> exists i :: 0 <= i < |sources| && MapsTable(sources[i], t)
    ensures |MappedTables(sources)| <= |sources|
  {
    forall t ensures t in MappedTables(sources) <==> exists i :: 0 <= i < |sources| && MapsTable(sources[i], t) {
      if t in MappedTables(sources) {
        MappedWitness(sources, t);
      }
      if exists i :: 0 <= i < |sources| && MapsTable(sources[i], t) {
        var i :| 0 <= i < |sources| && MapsTable(sources[i], t);
        MappedFrom(sources, i, t);
      }
    }
    MappedTablesBound(sources);
  }

  /** Each mapped table comes from some source. */
  lemma {:induction false} MappedWitness(sources: seq<Fields>, t: string)
    requires t in MappedTables(sources)
    ensures exists i :: 0 <= i < |sources| && MapsTable(sources[i], t)
    decreases |sources|
  {
    var init := sources[..|sources| - 1];
    if t in MappedTables(init) {
      MappedWitness(init, t);
      var i :| 0 <= i < |init| && MapsTable(init[i], t);
      assert sources[i] == init[i];
    } else {
      assert MapsTable(sources[|sources| - 1], t);
    }
  }

  /** The table of every source with a truthy table is mapped. */
  lemma {:induction false} MappedFrom(sources: seq<Fields>, i: nat, t: string)
    requires i < |sources| && MapsTable(sources[i], t)
    ensures t in MappedTables(sources)
    decreases |sources|
  {
    var init := sources[..|sources| - 1];
    if i < |init| {
      assert init[i] == sources[i];
      MappedFrom(init, i, t);
    }
  }

  lemma {:induction false} MappedTablesBound(sources: seq<Fields>)
    ensures |MappedTables(sources)| <= |sources|
    decreases |sources|
  {
    if sources != [] {
      MappedTablesBound(sources[..|sources| - 1]);
    }
  }

  /** How many definitions hold a marker somewhere. */
  function TodoCount(defs: seq<Fields>): (n: nat)
    ensures n <= |defs|
  {
    if defs == [] then 0
    else TodoCount(defs[..|defs| - 1]) + (if ContainsTodo(Obj(defs[|defs| - 1])) then 1 else 0)
  }

  /** No marker is counted exactly when no definition holds one. */
  lemma {:induction false} TodoCountZero(defs: seq<Fields>)
    ensures TodoCount(defs) == 0 <==> forall i :: 0 <= i < |defs| ==> !ContainsTodo(Obj(defs[i]))
    decreases |defs|
  {
    if defs != [] {
      TodoCountZero(defs[..|defs| - 1]);
    }
  }

  /** The numbers the report is built from. */
  function SourceCount(mapping: Fields): nat { |Sources(mapping)| }

  function QueryCount(mapping: Fields): nat { |Queries(mapping)| }

  function Todo(mapping: Fields): nat { TodoCount(Sources(mapping) + Queries(mapping)) }

  function Blockers(mapping: Fields): seq<string> { AllBlockers(Sources(mapping), Queries(mapping)) }

  /** The score `summarize` reports and returns. */
  function SummaryScore(mapping: Fields, inventory: set<string>): int
  {
    Score(SourceCount(mapping), QueryCount(mapping), MappedTables(Sources(mapping)), inventory,
          Todo(mapping), |Blockers(mapping)|)
  }

  /** The overview at the top of the report, down to the heading of the
      blocking issues. */
  function Overview(score: int, sourceCount: int, queryCount: int, mapped: set<string>, inventory: set<string>,
                    todo: int): (r: seq<string>)
    ensures |r| == 10
  {
    [ Title(), "", ScoreLine(score), SourcesLine(sourceCount), QueriesLine(queryCount), MappedLine(|mapped|),
      CoverageLine(mapped, inventory), TodoLine(todo), "", BlockingHeading() ]
  }

  function Title(): string { "# Malloy Migration Readiness Report" }

  /** `- Source definitions: **<count>**`. */
  function SourcesLine(n: int): string
  {
    "- Source definitions: **" + Decimal(n) + "**"
  }

  /** `- Query definitions: **<count>**`. */
  function QueriesLine(n: int): string
  {
    "- Query definitions: **" + Decimal(n) + "**"
  }

  /** `- Mapped legacy tables: **<count>**`. */
  function MappedLine(n: int): string
  {
    "- Mapped legacy tables: **" + Decimal(n) + "**"
  }

  /** `- Readiness score: **<score>/100**`. */
  function ScoreLine(score: int): string
  {
    "- Readiness score: **" + Decimal(score) + "/100**"
  }

  /** `- TODO/TBD markers: **<count>**`. */
  function TodoLine(todo: int): string
  {
    "- TODO/TBD markers: **" + Decimal(todo) + "**"
  }

  function CoverageLine(mapped: set<string>, inventory: set<string>): string
  {
    if inventory != {} then
      "- Inventory table coverage: **" + Decimal(|mapped * inventory|) + "/" + Decimal(|inventory|) + "**"
    else "- Inventory table coverage: **N/A** (inventory not provided)"
  }

  /** One bullet per blocker, or the all-clear line when there are none. */
  function Issues(blockers: seq<string>): (r: seq<string>)
    ensures |r| == if blockers == [] then 1 else |blockers|
  {
    if blockers == [] then [NoIssues()] else Bullets(blockers)
  }

  function NoIssues(): string
  {
    "- No blocking structural issues detected."
  }

  function Bullets(items: seq<string>): (r: seq<string>)
    ensures |r| == |items|
    ensures forall i :: 0 <= i < |items| ==> r[i] == "- " + items[i]
  {
    if items == [] then [] else Bullets(items[..|items| - 1]) + ["- " + items[|items| - 1]]
  }

  /** The closing section. */
  function NextActions(): (r: seq<string>)
    ensures |r| == 5
  {
    [ "",
      "## Next Actions",
      "- Resolve all blockers before dual-run.",
      "- Remove TODO/TBD markers and assign owners.",
      "- Re-run scaffold generation and parity checks after updates." ]
  }

  /** The report built from its numbers and its blockers. */
  function Report(score: int, sourceCount: int, queryCount: int, mapped: set<string>, inventory: set<string>,
                  todo: int, blockers: seq<string>): seq<string>
  {
    Overview(score, sourceCount, queryCount, mapped, inventory, todo) + Issues(blockers) + NextActions()
  }

  /** The lines of the report on a document. */
  function ReportLines(mapping: Fields, inventory: set<string>): seq<string>
  {
    Report(SummaryScore(mapping, inventory), SourceCount(mapping), QueryCount(mapping),
           MappedTables(Sources(mapping)), inventory, Todo(mapping), Blockers(mapping))
  }

  /** `summarize` as written: gather the counts, score them, and append the
      report line by line. */
  method Summarize(mapping: Fields, inventory: set<string>) returns (report: string, score: int)
    ensures score == SummaryScore(mapping, inventory)
    ensures report == Unlines(ReportLines(mapping, inventory))
  {
    var sources := Objects(SafeList(Field(mapping, "sources")));
    var queries := Objects(SafeList(Field(mapping, "queries")));
    var mapped := MappedTables(sources);
    var todo := TodoCount(sources + queries);
    var blockers := CollectBlockers(sources, queries);
    var missing := |blockers|;
    score := ReadinessScore(|sources|, |queries|, mapped, inventory, todo, missing);
    var lines := ReportSteps(score, |sources|, |queries|, mapped, inventory, todo, blockers);
    report := Unlines(lines);
  }

  /** The appends of `summarize`, one line at a time. */
  method ReportSteps(score: int, sourceCount: int, queryCount: int, mapped: set<string>, inventory: set<string>,
                     todo: int, blockers: seq<string>) returns (lines: seq<string>)
    ensures lines == Report(score, sourceCount, queryCount, mapped, inventory, todo, blockers)
  {
    lines := OverviewSteps(score, sourceCount, queryCount, mapped, inventory, todo);
    lines := IssueSteps(lines, blockers);
    var issues := lines;
    var a1, a2, a3 := "- Resolve all blockers before dual-run.", "- Remove TODO/TBD markers and assign owners.",
                      "- Re-run scaffold generation and parity checks after updates.";
    lines := lines + [""];
    lines := lines + ["## Next Actions"];
    lines := lines + [a1];
    lines := lines + [a2];
    lines := lines + [a3];
    FiveAppends(issues, "", "## Next Actions", a1, a2, a3);
  }

  /** The blocking issues: a bullet appended per blocker, or the all-clear
      line when there is none. */
  method IssueSteps(start: seq<string>, blockers: seq<string>) returns (lines: seq<string>)
    ensures lines == start + Issues(blockers)
  {
    lines := start;
    if blockers != [] {
      for i := 0 to |blockers|
        invariant lines == start + Bullets(blockers[..i])
      {
        lines := lines + ["- " + blockers[i]];
        assert blockers[..i + 1][..i] == blockers[..i];
      }
      assert blockers[..|blockers|] == blockers;
    } else {
      lines := lines + [NoIssues()];
    }
  }

  /** Five appends add the five lines in order. */
  lemma FiveAppends<T>(xs: seq<T>, a: T, b: T, c: T, d: T, e: T)
    ensures xs + [a] + [b] + [c] + [d] + [e] == xs + [a, b, c, d, e]
  {
  }

  /** The first ten appends: the title, the counts and the heading of the
      blocking issues. */
  method OverviewSteps(score: int, sourceCount: int, queryCount: int, mapped: set<string>, inventory: set<string>,
                       todo: int) returns (lines: seq<string>)
    ensures lines == Overview(score, sourceCount, queryCount, mapped, inventory, todo)
  {
    var title, scoreLine := Title(), ScoreLine(score);
    var sourcesLine, queriesLine := SourcesLine(sourceCount), QueriesLine(queryCount);
    var mappedLine := MappedLine(|mapped|);
    var todoLine, heading := TodoLine(todo), BlockingHeading();
    lines := [];
    lines := lines + [title];
    lines := lines + [""];
    lines := lines + [scoreLine];
    lines := lines + [sourcesLine];
    lines := lines + [queriesLine];
    lines := lines + [mappedLine];
    var counts := lines;
    if inventory != {} {
      var covered := |mapped * inventory|;
      lines := lines + ["- Inventory table coverage: **" + Decimal(covered) + "/" + Decimal(|inventory|) + "**"];
    } else {
      lines := lines + ["- Inventory table coverage: **N/A** (inventory not provided)"];
    }
    assert lines == counts + [CoverageLine(mapped, inventory)];
    lines := lines + [todoLine];
    lines := lines + [""];
    lines := lines + [heading];
    TenAppends(title, "", scoreLine, sourcesLine, queriesLine, mappedLine, CoverageLine(mapped, inventory),
               todoLine, "", heading);
  }

  /** Ten appends to an empty list give the ten lines in order. */
  lemma TenAppends<T>(a: T, b: T, c: T, d: T, e: T, f: T, g: T, h: T, i: T, j: T)
    ensures [] + [a] + [b] + [c] + [d] + [e] + [f] + [g] + [h] + [i] + [j] == [a, b, c, d, e, f, g, h, i, j]
  {
  }

  /** The score `summarize` returns lies in 0..100 and is the unclamped sum of
      its terms; it is computed from exactly as many blockers as the report
      lists, and from no more markers than retained definitions. */
  lemma SummaryScoreSpec(mapping: Fields, inventory: set<string>)
    ensures 0 <= SummaryScore(mapping, inventory) <= 100
    ensures SummaryScore(mapping, inventory)
            == RawScore(SourceCount(mapping), QueryCount(mapping), MappedTables(Sources(mapping)), inventory,
                        Todo(mapping), |Blockers(mapping)|)
    ensures Todo(mapping) <= SourceCount(mapping) + QueryCount(mapping)
  {
    RawScoreInRange(SourceCount(mapping), QueryCount(mapping), MappedTables(Sources(mapping)), inventory,
                    Todo(mapping), |Blockers(mapping)|);
  }

  /** A mapping with no sources and no queries, and no inventory, has no
      blockers and scores 45: the 15 points granted without an inventory, 20
      for no markers and 10 for no blockers. */
  lemma EmptyMappingScore()
    ensures Blockers([]) == []
    ensures SummaryScore([], {}) == 45
  {
  }

  /** The layout of the report: the blocking-issues heading at index 9 (the
      tenth line), then one bullet per blocker in order, or the single
      all-clear line, then the next-actions section as the last five lines. */
  lemma ReportLayout(score: int, sourceCount: int, queryCount: int, mapped: set<string>, inventory: set<string>,
                     todo: int, blockers: seq<string>)
    ensures var lines := Report(score, sourceCount, queryCount, mapped, inventory, todo, blockers);
            var n := if blockers == [] then 1 else |blockers|;
            && |lines| == 15 + n
            && lines[9] == BlockingHeading()
            && (blockers == [] ==> lines[10] == NoIssues())
            && (forall i :: 0 <= i < |blockers| ==> lines[10 + i] == "- " + blockers[i])
            && lines[10 + n] == ""
            && lines[11 + n] == NextActionsHeading()
  {
    var head := Overview(score, sourceCount, queryCount, mapped, inventory, todo);
    OverviewHeading(score, sourceCount, queryCount, mapped, inventory, todo);
    NextActionsStart();
    LayoutOf(head, Issues(blockers), NextActions(), blockers);
  }

  /** The same layout for any ten head lines and five tail lines. */
  lemma LayoutOf(head: seq<string>, issues: seq<string>, tail: seq<string>, blockers: seq<string>)
    requires |head| == 10 && |tail| == 5
    requires issues == Issues(blockers)
    ensures var lines := head + issues + tail;
            var n := if blockers == [] then 1 else |blockers|;
            && |lines| == 15 + n
            && lines[9] == head[9]
            && (blockers == [] ==> lines[10] == NoIssues())
            && (forall i :: 0 <= i < |blockers| ==> lines[10 + i] == "- " + blockers[i])
            && lines[10 + n] == tail[0]
            && lines[11 + n] == tail[1]
  {
    var lines := head + issues + tail;
    forall i | 0 <= i < |issues| ensures lines[10 + i] == issues[i] {
      IndexInMiddle(head, issues, tail, i);
    }
    IndexInMiddle(head + issues, tail, [], 0);
    IndexInMiddle(head + issues, tail, [], 1);
    assert head + issues + tail + [] == lines;
  }

  function BlockingHeading(): string { "## Blocking Issues" }

  function NextActionsHeading(): string { "## Next Actions" }

  lemma OverviewHeading(score: int, sourceCount: int, queryCount: int, mapped: set<string>, inventory: set<string>,
                        todo: int)
    ensures Overview(score, sourceCount, queryCount, mapped, inventory, todo)[9] == BlockingHeading()
  {
  }

  lemma NextActionsStart()
    ensures NextActions()[0] == "" && NextActions()[1] == NextActionsHeading()
  {
  }

  /** The report prints the score on its third line and the number of TODO
      markers on its eighth. */
  lemma ReportShowsCounts(score: int, sourceCount: int, queryCount: int, mapped: set<string>,
                          inventory: set<string>, todo: int, blockers: seq<string>)
    ensures var lines := Report(score, sourceCount, queryCount, mapped, inventory, todo, blockers);
            && lines[2] == ScoreLine(score)
            && lines[7] == TodoLine(todo)
  {
    var head := Overview(score, sourceCount, queryCount, mapped, inventory, todo);
    CountsInOverview(score, sourceCount, queryCount, mapped, inventory, todo);
    HeadKept(head, Issues(blockers), NextActions());
  }

  lemma HeadKept(head: seq<string>, issues: seq<string>, tail: seq<string>)
    requires |head| == 10
    ensures (head + issues + tail)[2] == head[2] && (head + issues + tail)[7] == head[7]
  {
  }

  lemma CountsInOverview(score: int, sourceCount: int, queryCount: int, mapped: set<string>,
                         inventory: set<string>, todo: int)
    ensures var head := Overview(score, sourceCount, queryCount, mapped, inventory, todo);
            && head[2] == ScoreLine(score)
            && head[7] == TodoLine(todo)
  {
    TenAt(Title(), "", ScoreLine(score), SourcesLine(sourceCount), QueriesLine(queryCount), MappedLine(|mapped|),
          CoverageLine(mapped, inventory), TodoLine(todo), "", BlockingHeading());
  }

  lemma TenAt<T>(a: T, b: T, c: T, d: T, e: T, f: T, g: T, h: T, i: T, j: T)
    ensures [a, b, c, d, e, f, g, h, i, j][2] == c && [a, b, c, d, e, f, g, h, i, j][7] == h
  {
  }
}
