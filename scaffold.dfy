/** The scaffold generator: turns one source or query definition of the mapping
    document into Malloy text (`render_source`, `render_query`), with the entry
    normalization they share (`iter_items`) and the output path convention. */
module Scaffold {
  import opened Strings
  import opened Mapping
  import NameNormalizer

  /** One step of `iter_items`: a bare string `s` stands for `{name: s, expr: s}`,
      an object passes through unchanged, anything else is refused. */
  function AsItem(v: Value): Result<Fields>
  {
    match v
    case Str(_) => Success([("name", v), ("expr", v)])
    case Obj(fs) => Success(fs)
    case _ => Failure(UnsupportedItem(v))
  }

  /** `iter_items`, consumed to the end. */
  method IterItems(items: seq<Value>) returns (r: Result<seq<Fields>>)
    ensures r.Success? <==> forall i :: 0 <= i < |items| ==> items[i].Str? || items[i].Obj?
    ensures r.Success? ==> |r.value| == |items|
    ensures r.Success? ==> forall i :: 0 <= i < |items| ==>
              r.value[i] == if items[i].Str? then [("name", items[i]), ("expr", items[i])] else items[i].fields
    ensures r.Failure? ==> exists k :: 0 <= k < |items| && !(items[k].Str? || items[k].Obj?)
                                       && r.error == UnsupportedItem(items[k])
                                       && forall i :: 0 <= i < k ==> items[i].Str? || items[i].Obj?
  {
    var out: seq<Fields> := [];
    for i := 0 to |items|
      invariant |out| == i
      invariant forall j :: 0 <= j < i ==> items[j].Str? || items[j].Obj?
      invariant forall j :: 0 <= j < i ==>
                  out[j] == if items[j].Str? then [("name", items[j]), ("expr", items[j])] else items[j].fields
    {
      var item := items[i];
      if item.Str? {
        out := out + [[("name", item), ("expr", item)]];
      } else if item.Obj? {
        out := out + [item.fields];
      } else {
        return Failure(UnsupportedItem(item));
      }
    }
    return Success(out);
  }

  // ---------------------------------------------------------------- sources

  /** A `dimension:` or `measure:` line, `  <kind>: <name> is <expr>`, where
      `expr` falls back to the name; `item['name']` raises `KeyError` when the
      object has no `name`. */
  function EntryLine(kind: string, v: Value): Result<string>
  {
    var item :- AsItem(v);
    match Lookup(item, "name")
    case None => Failure(MissingKey("name"))
    case Some(name) => Success(EntryPrefix(kind) + Text(name) + " is " + Text(FieldOr(item, "expr", name)))
  }

  /** How an entry line begins: `  <kind>: `. */
  function EntryPrefix(kind: string): string
  {
    "  " + kind + ": "
  }

  /** An entry renders exactly when it is a bare string or an object with a
      `name`; a bare string is both name and expression, and an object's
      expression defaults to its name. */
  lemma EntryLineSpec(kind: string, v: Value)
    ensures EntryLine(kind, v).Success? <==> v.Str? || (v.Obj? && HasKey(v.fields, "name"))
    ensures v.Str? ==> EntryLine(kind, v).value == "  " + kind + ": " + v.s + " is " + v.s
    ensures v.Obj? && HasKey(v.fields, "name") ==>
              EntryLine(kind, v).value
              == "  " + kind + ": " + Text(Field(v.fields, "name")) + " is "
                 + Text(if HasKey(v.fields, "expr") then Field(v.fields, "expr") else Field(v.fields, "name"))
    ensures v.Obj? && !HasKey(v.fields, "name") ==> EntryLine(kind, v) == Failure(MissingKey("name"))
    ensures !v.Str? && !v.Obj? ==> EntryLine(kind, v) == Failure(UnsupportedItem(v))
  {
  }

  function DimensionLine(v: Value): Result<string>
  {
    EntryLine("dimension", v)
  }

  function MeasureLine(v: Value): Result<string>
  {
    EntryLine("measure", v)
  }

  /** `join_many` exactly when `relationship` is the string `many`; a missing
      relationship counts as `one`. */
  function JoinKeyword(join: Fields): (k: string)
    ensures k == "join_many" <==> Lookup(join, "relationship") == Some(Str("many"))
    ensures k != "join_many" ==> k == "join_one"
  {
    if FieldOr(join, "relationship", Str("one")) == Str("many") then "join_many" else "join_one"
  }

  /** A join line. `target_source` takes precedence over `table`; a join that is
      not an object, lacks `name` or `on`, or has neither target fails. */
  function JoinLine(v: Value): Result<string>
  {
    if !v.Obj? then Failure(JoinNotObject(v))
    else
      var join := v.fields;
      var keyword := JoinKeyword(join);
      var joinName := Field(join, "name");
      var onClause := Field(join, "on");
      var targetSource := Field(join, "target_source");
      var targetTable := Field(join, "table");
      if !Truthy(joinName) || !Truthy(onClause) then Failure(JoinMissingNameOrOn(v))
      else if Truthy(targetSource) then
        Success("  " + keyword + ": " + Text(joinName) + " is " + Text(targetSource) + " with " + Text(onClause))
      else if Truthy(targetTable) then
        Success("  " + keyword + ": " + Text(joinName) + " is table('" + Text(targetTable) + "') with " + Text(onClause))
      else Failure(JoinMissingTarget(v))
  }

  /** A join renders exactly when it is an object with a truthy `name` and
      `on` and a truthy target; each failure has its own error. */
  lemma JoinLineSucceeds(v: Value)
    ensures JoinLine(v).Success? <==>
              && v.Obj? && Truthy(Field(v.fields, "name")) && Truthy(Field(v.fields, "on"))
              && (Truthy(Field(v.fields, "target_source")) || Truthy(Field(v.fields, "table")))
    ensures !v.Obj? ==> JoinLine(v) == Failure(JoinNotObject(v))
    ensures v.Obj? && !(Truthy(Field(v.fields, "name")) && Truthy(Field(v.fields, "on"))) ==>
              JoinLine(v) == Failure(JoinMissingNameOrOn(v))
    ensures v.Obj? && Truthy(Field(v.fields, "name")) && Truthy(Field(v.fields, "on"))
            && !Truthy(Field(v.fields, "target_source")) && !Truthy(Field(v.fields, "table")) ==>
              JoinLine(v) == Failure(JoinMissingTarget(v))
  {
  }

  /** A rendered join names its target: `target_source` when truthy, taking
      precedence over `table`, which is otherwise wrapped in `table('...')`. */
  lemma JoinLineText(v: Value)
    requires JoinLine(v).Success?
    ensures v.Obj?
    ensures var join := v.fields;
            var keyword, name, on := JoinKeyword(join), Text(Field(join, "name")), Text(Field(join, "on"));
            && (Truthy(Field(join, "target_source")) ==>
                  JoinLine(v).value
                  == "  " + keyword + ": " + name + " is " + Text(Field(join, "target_source")) + " with " + on)
            && (!Truthy(Field(join, "target_source")) ==>
                  JoinLine(v).value
                  == "  " + keyword + ": " + name + " is table('" + Text(Field(join, "table")) + "') with " + on)
  {
  }

  function SourceHeader(name: Value, table: Value): string
  {
    "source: " + Text(name) + " is table('" + Text(table) + "') extend {"
  }

  function PrimaryKeyLines(src: Fields): (r: seq<string>)
    ensures |r| == if Truthy(Field(src, "primary_key")) then 1 else 0
  {
    if Truthy(Field(src, "primary_key")) then ["  primary_key: " + Text(Field(src, "primary_key"))] else []
  }

  /** The lines `render_source` joins, or the failure it raises first. */
  function SourceLines(src: Fields): Result<seq<string>>
  {
    var name := Field(src, "name");
    var table := Field(src, "table");
    if !Truthy(name) || !Truthy(table) then Failure(MissingNameOrTable)
    else
      var dims :- Section(src, "dimensions");
      var dimLines :- Traverse(DimensionLine, dims);
      var measures :- Section(src, "measures");
      var measureLines :- Traverse(MeasureLine, measures);
      var joins :- Section(src, "joins");
      var joinLines :- Traverse(JoinLine, joins);
      Success([SourceHeader(name, table)] + PrimaryKeyLines(src) + dimLines + measureLines + joinLines + ["}"])
  }

  function SourceText(src: Fields): Result<string>
  {
    var lines :- SourceLines(src);
    Success(Unlines(lines))
  }

  /** Walks one section in order, appending the line `f` renders for each
      entry, and stops at the first entry `f` refuses. */
  method AppendLines(lines: seq<string>, f: Value -> Result<string>, entries: seq<Value>)
    returns (r: Result<seq<string>>)
    ensures Traverse(f, entries).Success? ==> r == Success(lines + Traverse(f, entries).value)
    ensures Traverse(f, entries).Failure? ==> r == Failure(Traverse(f, entries).error)
  {
    var out := lines;
    for i := 0 to |entries|
      invariant Traverse(f, entries[..i]).Success?
      invariant out == lines + Traverse(f, entries[..i]).value
    {
      TraverseStep(f, entries, i);
      var line :- f(entries[i]);
      out := out + [line];
    }
    assert entries[..|entries|] == entries;
    return Success(out);
  }

  /** `render_source`. */
  method RenderSource(src: Fields) returns (r: Result<string>)
    ensures r == SourceText(src)
  {
    var name := Field(src, "name");
    var table := Field(src, "table");
    if !Truthy(name) || !Truthy(table) {
      return Failure(MissingNameOrTable);
    }
    var lines := [SourceHeader(name, table)];
    if Truthy(Field(src, "primary_key")) {
      lines := lines + ["  primary_key: " + Text(Field(src, "primary_key"))];
    }
    assert lines == [SourceHeader(name, table)] + PrimaryKeyLines(src);

    var dims :- Section(src, "dimensions");
    lines :- AppendLines(lines, DimensionLine, dims);
    var measures :- Section(src, "measures");
    lines :- AppendLines(lines, MeasureLine, measures);
    var joins :- Section(src, "joins");
    lines :- AppendLines(lines, JoinLine, joins);
    lines := lines + ["}"];
    assert lines == [SourceHeader(name, table)] + PrimaryKeyLines(src)
                    + Traverse(DimensionLine, dims).value + Traverse(MeasureLine, measures).value
                    + Traverse(JoinLine, joins).value + ["}"];
    return Success(Unlines(lines));
  }

  /** Every entry of a section can be rendered by `f`. */
  predicate Renders<T>(f: Value -> Result<T>, section: Result<seq<Value>>)
  {
    section.Success? && forall i :: 0 <= i < |section.value| ==> f(section.value[i]).Success?
  }

  /** When `render_source` succeeds: a definition with a truthy `name` and
      `table` whose every dimension, measure and join renders. A missing table
      always fails, whatever else is there. */
  lemma SourceSucceedsIff(src: Fields)
    ensures SourceLines(src).Success? <==>
              && Truthy(Field(src, "name")) && Truthy(Field(src, "table"))
              && Renders(DimensionLine, Section(src, "dimensions"))
              && Renders(MeasureLine, Section(src, "measures"))
              && Renders(JoinLine, Section(src, "joins"))
    ensures !Truthy(Field(src, "name")) || !Truthy(Field(src, "table")) ==>
              SourceLines(src) == Failure(MissingNameOrTable)
  {
    var dims, measures, joins := Section(src, "dimensions"), Section(src, "measures"), Section(src, "joins");
    if dims.Success? { TraverseSucceeds(DimensionLine, dims.value); }
    if measures.Success? { TraverseSucceeds(MeasureLine, measures.value); }
    if joins.Success? { TraverseSucceeds(JoinLine, joins.value); }
  }

  /** The frame of a rendered source: the header, an optional primary key
      line, one line per dimension, measure and join, and the closing brace. */
  lemma SourceLayout(src: Fields)
    requires SourceLines(src).Success?
    ensures Section(src, "dimensions").Success? && Section(src, "measures").Success?
            && Section(src, "joins").Success?
    ensures var lines := SourceLines(src).value;
            var p := if Truthy(Field(src, "primary_key")) then 1 else 0;
            && |lines| == 2 + p + |Section(src, "dimensions").value|
                          + |Section(src, "measures").value| + |Section(src, "joins").value|
            && lines[0] == SourceHeader(Field(src, "name"), Field(src, "table"))
            && (p == 1 ==> lines[1] == "  primary_key: " + Text(Field(src, "primary_key")))
            && lines[|lines| - 1] == "}"
  {
    SourceLinesShape(src);
    TraverseLength(DimensionLine, Section(src, "dimensions").value);
    TraverseLength(MeasureLine, Section(src, "measures").value);
    TraverseLength(JoinLine, Section(src, "joins").value);
  }

  /** After the header and the optional primary key, a rendered source has
      one line per dimension, in input order. */
  lemma SourceDimensionLines(src: Fields)
    requires SourceLines(src).Success?
    ensures Section(src, "dimensions").Success?
    ensures |SourceLines(src).value| > 1 + |PrimaryKeyLines(src)| + |Section(src, "dimensions").value|
    ensures LinesAt(SourceLines(src).value, 1 + |PrimaryKeyLines(src)|, DimensionLine, Section(src, "dimensions").value)
  {
    SourceLinesShape(src);
    var dims, measures, joins := Section(src, "dimensions").value, Section(src, "measures").value, Section(src, "joins").value;
    var head := [SourceHeader(Field(src, "name"), Field(src, "table"))] + PrimaryKeyLines(src);
    var dw, mw, jw := Traverse(DimensionLine, dims).value, Traverse(MeasureLine, measures).value, Traverse(JoinLine, joins).value;
    Regroup(head, dw, mw, jw, ["}"]);
    var at := 1 + |PrimaryKeyLines(src)|;
    SectionAt(SourceLines(src).value, at, head, DimensionLine, dims, dw, mw + jw + ["}"]);
  }

  /** The measure lines follow the dimension lines, one per measure, in input
      order. */
  lemma SourceMeasureLines(src: Fields)
    requires SourceLines(src).Success?
    ensures Section(src, "measures").Success?
    ensures Section(src, "dimensions").Success?
    ensures |SourceLines(src).value|
            > 1 + |PrimaryKeyLines(src)| + |Section(src, "dimensions").value| + |Section(src, "measures").value|
    ensures LinesAt(SourceLines(src).value, 1 + |PrimaryKeyLines(src)| + |Section(src, "dimensions").value|,
                    MeasureLine, Section(src, "measures").value)
  {
    SourceLinesShape(src);
    var dims, measures, joins := Section(src, "dimensions").value, Section(src, "measures").value, Section(src, "joins").value;
    var head := [SourceHeader(Field(src, "name"), Field(src, "table"))] + PrimaryKeyLines(src);
    var dw, mw, jw := Traverse(DimensionLine, dims).value, Traverse(MeasureLine, measures).value, Traverse(JoinLine, joins).value;
    TraverseLength(DimensionLine, dims);
    Regroup(head, dw, mw, jw, ["}"]);
    var at := 1 + |PrimaryKeyLines(src)| + |dims|;
    SectionAt(SourceLines(src).value, at, head + dw, MeasureLine, measures, mw, jw + ["}"]);
  }

  /** The join lines come last before the closing brace, one per join, in
      input order. */
  lemma SourceJoinLines(src: Fields)
    requires SourceLines(src).Success?
    ensures Section(src, "joins").Success?
    ensures Section(src, "dimensions").Success? && Section(src, "measures").Success?
    ensures |SourceLines(src).value|
            == 2 + |PrimaryKeyLines(src)| + |Section(src, "dimensions").value| + |Section(src, "measures").value|
               + |Section(src, "joins").value|
    ensures LinesAt(SourceLines(src).value,
                    1 + |PrimaryKeyLines(src)| + |Section(src, "dimensions").value| + |Section(src, "measures").value|,
                    JoinLine, Section(src, "joins").value)
  {
    SourceLinesShape(src);
    var dims, measures, joins := Section(src, "dimensions").value, Section(src, "measures").value, Section(src, "joins").value;
    var head := [SourceHeader(Field(src, "name"), Field(src, "table"))] + PrimaryKeyLines(src);
    var dw, mw, jw := Traverse(DimensionLine, dims).value, Traverse(MeasureLine, measures).value, Traverse(JoinLine, joins).value;
    TraverseLength(DimensionLine, dims);
    TraverseLength(MeasureLine, measures);
    var at := 1 + |PrimaryKeyLines(src)| + |dims| + |measures|;
    assert |head + dw + mw| == at;
    SectionAt(SourceLines(src).value, at, head + dw + mw, JoinLine, joins, jw, ["}"]);
  }

  /** The groupings of a five-part concatenation that the layout lemmas use. */
  lemma Regroup<T>(a: seq<T>, b: seq<T>, c: seq<T>, d: seq<T>, e: seq<T>)
    ensures a + b + c + d + e == a + b + (c + d + e)
    ensures a + b + c + d + e == (a + b) + c + (d + e)
  {
  }

  /** Inside `head + <the walk of a section> + tail`, the line at each position
      of the walk is what `f` renders for the matching entry. */
  lemma SectionAt(lines: seq<string>, at: nat, head: seq<string>, f: Value -> Result<string>,
                  entries: seq<Value>, walk: seq<string>, tail: seq<string>)
    requires Traverse(f, entries) == Success(walk)
    requires |head| == at && lines == head + walk + tail
    ensures |walk| == |entries| && |lines| == at + |entries| + |tail|
    ensures LinesAt(lines, at, f, entries)
  {
    TraverseValues(f, entries);
    assert |lines| == |head| + |walk| + |tail|;
    forall i | 0 <= i < |entries| ensures f(entries[i]).Success? && lines[at + i] == f(entries[i]).value {
      IndexInMiddle(head, walk, tail, i);
    }
  }

  /** From position `at` on, `lines` holds what `f` renders for each entry,
      in order. */
  predicate LinesAt(lines: seq<string>, at: nat, f: Value -> Result<string>, entries: seq<Value>)
    requires at + |entries| <= |lines|
  {
    forall i :: 0 <= i < |entries| ==> f(entries[i]).Success? && lines[at + i] == f(entries[i]).value
  }


  /** A successful rendering is the concatenation of its parts. */
  lemma SourceLinesShape(src: Fields)
    requires SourceLines(src).Success?
    ensures Section(src, "dimensions").Success? && Section(src, "measures").Success?
            && Section(src, "joins").Success?
    ensures Traverse(DimensionLine, Section(src, "dimensions").value).Success?
            && Traverse(MeasureLine, Section(src, "measures").value).Success?
            && Traverse(JoinLine, Section(src, "joins").value).Success?
    ensures SourceLines(src).value
            == [SourceHeader(Field(src, "name"), Field(src, "table"))] + PrimaryKeyLines(src)
               + Traverse(DimensionLine, Section(src, "dimensions").value).value
               + Traverse(MeasureLine, Section(src, "measures").value).value
               + Traverse(JoinLine, Section(src, "joins").value).value + ["}"]
  {
  }

  /** The rendered text is the lines, each ended by a newline. */
  lemma SourceTextLines(src: Fields)
    requires SourceLines(src).Success?
    requires forall k :: 0 <= k < |SourceLines(src).value| ==> NoNewline(SourceLines(src).value[k])
    ensures SourceText(src).Success?
    ensures SplitLines(SourceText(src).value) == SourceLines(src).value + [""]
  {
    assert SourceText(src) == Success(Unlines(SourceLines(src).value));
    UnlinesRoundTrip(SourceLines(src).value);
  }

  /** The number of lines that start with `prefix`. */
  function CountPrefixed(lines: seq<string>, prefix: string): (n: nat)
    ensures n <= |lines|
  {
    if lines == [] then 0
    else CountPrefixed(lines[..|lines| - 1], prefix) + (if IsPrefix(prefix, lines[|lines| - 1]) then 1 else 0)
  }

  lemma {:induction false} CountPrefixedConcat(a: seq<string>, b: seq<string>, prefix: string)
    ensures CountPrefixed(a + b, prefix) == CountPrefixed(a, prefix) + CountPrefixed(b, prefix)
    decreases |b|
  {
    if b == [] {
      assert a + b == a;
    } else {
      CountPrefixedConcat(a, b[..|b| - 1], prefix);
      assert (a + b)[..|a + b| - 1] == a + b[..|b| - 1];
    }
  }

  lemma {:induction false} CountPrefixedAll(lines: seq<string>, prefix: string, yes: bool)
    requires forall k :: 0 <= k < |lines| ==> IsPrefix(prefix, lines[k]) == yes
    ensures CountPrefixed(lines, prefix) == if yes then |lines| else 0
    decreases |lines|
  {
    if lines != [] {
      CountPrefixedAll(lines[..|lines| - 1], prefix, yes);
    }
  }

  /** A line whose character at `k` differs from the prefix's does not start
      with it. */
  lemma DiffersAt(prefix: string, line: string, k: nat)
    requires k < |prefix| && k < |line| && line[k] != prefix[k]
    ensures !IsPrefix(prefix, line)
  {
    assert |line| >= |prefix| ==> line[..|prefix|][k] == line[k];
  }

  /** Exactly one `dimension:` line per dimension entry: no other line of a
      rendered source starts that way. */
  lemma DimensionLineCount(src: Fields)
    requires SourceLines(src).Success?
    ensures Section(src, "dimensions").Success?
    ensures CountPrefixed(SourceLines(src).value, EntryPrefix("dimension")) == |Section(src, "dimensions").value|
  {
    SourceLinesShape(src);
    var prefix := EntryPrefix("dimension");
    var dims := Section(src, "dimensions").value;
    var header := SourceHeader(Field(src, "name"), Field(src, "table"));
    var dw := Traverse(DimensionLine, dims).value;
    var mw := Traverse(MeasureLine, Section(src, "measures").value).value;
    var jw := Traverse(JoinLine, Section(src, "joins").value).value;
    HeadNotDimension(src);
    EntryPrefixChars("dimension");
    DimensionWalk(dims);
    MeasureWalk(Section(src, "measures").value);
    JoinWalk(Section(src, "joins").value);
    NoneStartWith(mw, prefix, 2, 'm');
    NoneStartWith(jw, prefix, 2, 'j');
    CountOneSection([header], PrimaryKeyLines(src), dw, mw, jw, ["}"], prefix);
  }

  /** The header, the primary key line and the closing brace do not start
      like a dimension line. */
  lemma HeadNotDimension(src: Fields)
    ensures !IsPrefix(EntryPrefix("dimension"), SourceHeader(Field(src, "name"), Field(src, "table")))
    ensures forall k :: 0 <= k < |PrimaryKeyLines(src)| ==>
              !IsPrefix(EntryPrefix("dimension"), PrimaryKeyLines(src)[k])
    ensures !IsPrefix(EntryPrefix("dimension"), "}")
  {
    HeaderNotDimension(Field(src, "name"), Field(src, "table"));
    PrimaryKeyNotDimension(src);
    EntryPrefixChars("dimension");
    DiffersAt(EntryPrefix("dimension"), "}", 0);
  }

  lemma PrimaryKeyNotDimension(src: Fields)
    ensures forall k :: 0 <= k < |PrimaryKeyLines(src)| ==>
              !IsPrefix(EntryPrefix("dimension"), PrimaryKeyLines(src)[k])
  {
    if Truthy(Field(src, "primary_key")) {
      var line := "  primary_key: " + Text(Field(src, "primary_key"));
      assert PrimaryKeyLines(src) == [line];
      CharKept("  primary_key: ", Text(Field(src, "primary_key")), 2);
      EntryPrefixChars("dimension");
      DiffersAt(EntryPrefix("dimension"), line, 2);
    }
  }

  lemma HeaderNotDimension(name: Value, table: Value)
    ensures !IsPrefix(EntryPrefix("dimension"), SourceHeader(name, table))
  {
    var a, b, c, d := "source: ", Text(name), " is table('", Text(table);
    CharKept(a, b, 2);
    CharKept(a + b, c, 2);
    CharKept(a + b + c, d, 2);
    CharKept(a + b + c + d, "') extend {", 2);
    EntryPrefixChars("dimension");
    DiffersAt(EntryPrefix("dimension"), SourceHeader(name, table), 2);
  }

  /** The first three characters of an entry prefix: two spaces and the
      kind's first letter. */
  lemma EntryPrefixChars(kind: string)
    requires kind != []
    ensures |EntryPrefix(kind)| > 2
    ensures EntryPrefix(kind)[0] == ' ' && EntryPrefix(kind)[1] == ' ' && EntryPrefix(kind)[2] == kind[0]
  {
  }

  /** Lines that all have `c` at position `k` do not start with a prefix
      that has another character there. */
  lemma NoneStartWith(lines: seq<string>, prefix: string, k: nat, c: char)
    requires k < |prefix| && prefix[k] != c
    requires forall i :: 0 <= i < |lines| ==> |lines[i]| > k && lines[i][k] == c
    ensures forall i :: 0 <= i < |lines| ==> !IsPrefix(prefix, lines[i])
  {
    forall i | 0 <= i < |lines| ensures !IsPrefix(prefix, lines[i]) {
      DiffersAt(prefix, lines[i], k);
    }
  }

  /** Counting over six parts where only the third part's lines carry the
      prefix. */
  lemma CountOneSection(h: seq<string>, a: seq<string>, b: seq<string>, c: seq<string>, d: seq<string>,
                        e: seq<string>, prefix: string)
    requires forall k :: 0 <= k < |h| ==> !IsPrefix(prefix, h[k])
    requires forall k :: 0 <= k < |a| ==> !IsPrefix(prefix, a[k])
    requires forall k :: 0 <= k < |b| ==> IsPrefix(prefix, b[k])
    requires forall k :: 0 <= k < |c| ==> !IsPrefix(prefix, c[k])
    requires forall k :: 0 <= k < |d| ==> !IsPrefix(prefix, d[k])
    requires forall k :: 0 <= k < |e| ==> !IsPrefix(prefix, e[k])
    ensures CountPrefixed(h + a + b + c + d + e, prefix) == |b|
  {
    CountPrefixedAll(h, prefix, false);
    CountPrefixedAll(a, prefix, false);
    CountPrefixedAll(b, prefix, true);
    CountPrefixedAll(c, prefix, false);
    CountPrefixedAll(d, prefix, false);
    CountPrefixedAll(e, prefix, false);
    CountPrefixedConcat(h, a, prefix);
    CountPrefixedConcat(h + a, b, prefix);
    CountPrefixedConcat(h + a + b, c, prefix);
    CountPrefixedConcat(h + a + b + c, d, prefix);
    CountPrefixedConcat(h + a + b + c + d, e, prefix);
  }

  /** Every line of a dimension walk starts with `  dimension: `. */
  lemma DimensionWalk(dims: seq<Value>)
    requires Traverse(DimensionLine, dims).Success?
    ensures |Traverse(DimensionLine, dims).value| == |dims|
    ensures forall k :: 0 <= k < |Traverse(DimensionLine, dims).value| ==>
              IsPrefix(EntryPrefix("dimension"), Traverse(DimensionLine, dims).value[k])
  {
    TraverseValues(DimensionLine, dims);
    var walk := Traverse(DimensionLine, dims).value;
    forall k | 0 <= k < |walk| ensures IsPrefix(EntryPrefix("dimension"), walk[k]) {
      EntryLineStart("dimension", dims[k]);
    }
  }

  /** Measure lines have `m` as their third character. */
  lemma MeasureWalk(measures: seq<Value>)
    requires Traverse(MeasureLine, measures).Success?
    ensures forall k :: 0 <= k < |Traverse(MeasureLine, measures).value| ==>
              |Traverse(MeasureLine, measures).value[k]| > 2 && Traverse(MeasureLine, measures).value[k][2] == 'm'
  {
    TraverseValues(MeasureLine, measures);
    forall k | 0 <= k < |measures|
      ensures |MeasureLine(measures[k]).value| > 2 && MeasureLine(measures[k]).value[2] == 'm'
    {
      var line := MeasureLine(measures[k]).value;
      EntryLineStart("measure", measures[k]);
      EntryPrefixChars("measure");
      assert line[..|EntryPrefix("measure")|][2] == line[2];
    }
  }

  /** Join lines have `j` as their third character. */
  lemma JoinWalk(joins: seq<Value>)
    requires Traverse(JoinLine, joins).Success?
    ensures forall k :: 0 <= k < |Traverse(JoinLine, joins).value| ==>
              |Traverse(JoinLine, joins).value[k]| > 2 && Traverse(JoinLine, joins).value[k][2] == 'j'
  {
    TraverseValues(JoinLine, joins);
    forall k | 0 <= k < |joins|
      ensures |JoinLine(joins[k]).value| > 2 && JoinLine(joins[k]).value[2] == 'j'
    {
      JoinLineStart(joins[k]);
    }
  }

  /** An entry line starts with two spaces, its kind and a colon. */
  lemma EntryLineStart(kind: string, v: Value)
    requires EntryLine(kind, v).Success?
    ensures IsPrefix(EntryPrefix(kind), EntryLine(kind, v).value)
  {
    var prefix := EntryPrefix(kind);
    var item := AsItem(v).value;
    var name := Lookup(item, "name").value;
    var rest := Text(name) + " is " + Text(FieldOr(item, "expr", name));
    assert EntryLine(kind, v).value == prefix + rest;
    assert (prefix + rest)[..|prefix|] == prefix;
  }

  /** A join line starts with two spaces and its `join_` keyword. */
  lemma JoinLineStart(v: Value)
    requires JoinLine(v).Success?
    ensures |JoinLine(v).value| > 2 && JoinLine(v).value[2] == 'j'
  {
    JoinLineText(v);
    var join := v.fields;
    var keyword := JoinKeyword(join);
    var name, on := Text(Field(join, "name")), Text(Field(join, "on"));
    var ts := Field(join, "target_source");
    if Truthy(ts) {
      KeptThroughSix("  " + keyword, ": ", name, " is ", Text(ts), " with ", on, 2);
    } else {
      KeptThroughSix("  " + keyword, ": ", name, " is table('", Text(Field(join, "table")), "') with ", on, 2);
    }
  }

  lemma KeptThroughSix(a: string, b: string, c: string, d: string, e: string, f: string, g: string, k: nat)
    requires k < |a|
    ensures k < |a + b + c + d + e + f + g| && (a + b + c + d + e + f + g)[k] == a[k]
  {
    CharKept(a, b, k);
    CharKept(a + b, c, k);
    CharKept(a + b + c, d, k);
    CharKept(a + b + c + d, e, k);
    CharKept(a + b + c + d + e, f, k);
    CharKept(a + b + c + d + e + f, g, k);
  }


  // ---------------------------------------------------------------- queries

  /** The `name` of an entry after `iter_items`: only the name is kept, and an
      object without one raises `KeyError`. */
  function ItemName(v: Value): Result<Value>
  {
    var item :- AsItem(v);
    match Lookup(item, "name")
    case None => Failure(MissingKey("name"))
    case Some(name) => Success(name)
  }

  /** A bare string is its own name, an object needs a `name` key, and
      anything else is refused. */
  lemma ItemNameSpec(v: Value)
    ensures ItemName(v).Success? <==> v.Str? || (v.Obj? && HasKey(v.fields, "name"))
    ensures v.Str? ==> ItemName(v).value == v
    ensures v.Obj? && HasKey(v.fields, "name") ==> ItemName(v).value == Field(v.fields, "name")
    ensures v.Obj? && !HasKey(v.fields, "name") ==> ItemName(v) == Failure(MissingKey("name"))
    ensures !v.Str? && !v.Obj? ==> ItemName(v) == Failure(UnsupportedItem(v))
  {
  }

  function QueryHeader(name: Value, from: Value): string
  {
    "query: " + Text(name) + " is " + Text(from) + " -> {"
  }

  /** A `group_by:` or `aggregate:` block; empty lists emit nothing at all. */
  function Block(title: string, names: seq<Value>): (r: seq<string>)
    ensures |r| == if names == [] then 0 else 1 + |names|
  {
    if names == [] then [] else [Heading(title)] + Indented(names)
  }

  /** The heading line of a block, `  <title>:`. */
  function Heading(title: string): string
  {
    "  " + title + ":"
  }

  /** One `    <name>` line per name, in order. */
  function Indented(names: seq<Value>): (r: seq<string>)
    ensures |r| == |names|
    ensures forall i :: 0 <= i < |names| ==> r[i] == "    " + Text(names[i])
  {
    if names == [] then [] else Indented(names[..|names| - 1]) + ["    " + Text(names[|names| - 1])]
  }

  /** The number of lines a block over `entries` takes: none for no entries,
      otherwise a heading plus one line per entry. */
  function BlockSpan<T>(entries: seq<T>): nat
  {
    if entries == [] then 0 else 1 + |entries|
  }

  function WhereLines(where: Value): (r: seq<string>)
    ensures |r| == if Truthy(where) then 1 else 0
  {
    if Truthy(where) then ["  where: " + Text(where)] else []
  }

  /** The lines `render_query` joins, or the failure it raises first. */
  function QueryLines(q: Fields): Result<seq<string>>
  {
    var name := Field(q, "name");
    var from := Field(q, "from");
    if !Truthy(name) || !Truthy(from) then Failure(MissingNameOrFrom)
    else
      var groupItems :- Section(q, "group_by");
      var groups :- Traverse(ItemName, groupItems);
      var aggItems :- Section(q, "aggregate");
      var aggs :- Traverse(ItemName, aggItems);
      Success([QueryHeader(name, from)] + Block("group_by", groups) + Block("aggregate", aggs)
              + WhereLines(Field(q, "where")) + ["}"])
  }

  function QueryText(q: Fields): Result<string>
  {
    var lines :- QueryLines(q);
    Success(Unlines(lines))
  }

  /** The names of a section's entries, in order, stopping at the first entry
      that is neither a string nor an object with a `name`. */
  method CollectNames(entries: seq<Value>) returns (r: Result<seq<Value>>)
    ensures r == Traverse(ItemName, entries)
  {
    var names: seq<Value> := [];
    for i := 0 to |entries|
      invariant Traverse(ItemName, entries[..i]) == Success(names)
    {
      TraverseStep(ItemName, entries, i);
      var name :- ItemName(entries[i]);
      names := names + [name];
    }
    assert entries[..|entries|] == entries;
    return Success(names);
  }

  /** Appends a block: nothing for no names, otherwise the heading and then
      the indented names, built one by one. */
  method AppendBlock(lines: seq<string>, title: string, names: seq<Value>) returns (out: seq<string>)
    ensures out == lines + Block(title, names)
  {
    out := lines;
    if names != [] {
      var heading := [Heading(title)];
      var body: seq<string> := [];
      for i := 0 to |names|
        invariant body == Indented(names[..i])
      {
        assert names[..i + 1][..i] == names[..i];
        body := body + ["    " + Text(names[i])];
      }
      assert names[..|names|] == names;
      out := lines + (heading + body);
    } else {
      assert lines + [] == lines;
    }
  }

  /** `render_query`. */
  method RenderQuery(q: Fields) returns (r: Result<string>)
    ensures r == QueryText(q)
  {
    var name := Field(q, "name");
    var from := Field(q, "from");
    if !Truthy(name) || !Truthy(from) {
      return Failure(MissingNameOrFrom);
    }
    var lines := [QueryHeader(name, from)];
    var groupItems :- Section(q, "group_by");
    var groups :- CollectNames(groupItems);
    var aggItems :- Section(q, "aggregate");
    var aggs :- CollectNames(aggItems);
    var where := Field(q, "where");
    lines := AppendBlock(lines, "group_by", groups);
    lines := AppendBlock(lines, "aggregate", aggs);
    if Truthy(where) {
      lines := lines + ["  where: " + Text(where)];
    }
    lines := lines + ["}"];
    assert lines == [QueryHeader(name, from)] + Block("group_by", groups) + Block("aggregate", aggs)
                    + WhereLines(where) + ["}"];
    return Success(Unlines(lines));
  }

  /** When `render_query` succeeds: a truthy `name` and `from`, and every
      `group_by` and `aggregate` entry has a name. */
  lemma QuerySucceedsIff(q: Fields)
    ensures QueryLines(q).Success? <==>
              && Truthy(Field(q, "name")) && Truthy(Field(q, "from"))
              && Renders(ItemName, Section(q, "group_by"))
              && Renders(ItemName, Section(q, "aggregate"))
    ensures !Truthy(Field(q, "name")) || !Truthy(Field(q, "from")) ==>
              QueryLines(q) == Failure(MissingNameOrFrom)
  {
    var groups, aggs := Section(q, "group_by"), Section(q, "aggregate");
    if groups.Success? { TraverseSucceeds(ItemName, groups.value); }
    if aggs.Success? { TraverseSucceeds(ItemName, aggs.value); }
  }

  /** A successful query rendering is the concatenation of its parts. */
  lemma QueryLinesShape(q: Fields)
    requires QueryLines(q).Success?
    ensures Section(q, "group_by").Success? && Section(q, "aggregate").Success?
    ensures Traverse(ItemName, Section(q, "group_by").value).Success?
            && Traverse(ItemName, Section(q, "aggregate").value).Success?
    ensures QueryLines(q).value
            == [QueryHeader(Field(q, "name"), Field(q, "from"))]
               + Block("group_by", Traverse(ItemName, Section(q, "group_by").value).value)
               + Block("aggregate", Traverse(ItemName, Section(q, "aggregate").value).value)
               + WhereLines(Field(q, "where")) + ["}"]
  {
  }

  /** The frame of a rendered query: the header, a block of one heading plus
      one line per name for each non-empty name list, a `where:` line only
      when `where` is truthy, and the closing brace. */
  lemma QueryLayout(q: Fields)
    requires QueryLines(q).Success?
    ensures Renders(ItemName, Section(q, "group_by")) && Renders(ItemName, Section(q, "aggregate"))
    ensures var lines := QueryLines(q).value;
            var groups := Section(q, "group_by").value;
            var aggs := Section(q, "aggregate").value;
            var g := BlockSpan(groups);
            var a := BlockSpan(aggs);
            var w := if Truthy(Field(q, "where")) then 1 else 0;
            && |lines| == 2 + g + a + w
            && lines[0] == QueryHeader(Field(q, "name"), Field(q, "from"))
            && (w == 1 ==> lines[1 + g + a] == "  where: " + Text(Field(q, "where")))
            && lines[|lines| - 1] == "}"
  {
    QueryLinesShape(q);
    var groupItems := Section(q, "group_by").value;
    var aggItems := Section(q, "aggregate").value;
    TraverseValues(ItemName, groupItems);
    TraverseValues(ItemName, aggItems);
    var gb := Block("group_by", Traverse(ItemName, groupItems).value);
    var ab := Block("aggregate", Traverse(ItemName, aggItems).value);
    BlockSize("group_by", Traverse(ItemName, groupItems).value, groupItems);
    BlockSize("aggregate", Traverse(ItemName, aggItems).value, aggItems);
    var head := [QueryHeader(Field(q, "name"), Field(q, "from"))];
    var lines := QueryLines(q).value;
    assert lines == head + gb + ab + WhereLines(Field(q, "where")) + ["}"];
    assert |head + gb| == 1 + |gb|;
    assert |head + gb + ab| == 1 + |gb| + |ab|;
  }

  /** When there are group entries, the `group_by:` heading follows the
      header and each entry contributes its name, in input order. */
  lemma QueryGroupNames(q: Fields)
    requires QueryLines(q).Success?
    ensures Section(q, "group_by").Success?
    ensures |QueryLines(q).value| > 1 + BlockSpan(Section(q, "group_by").value)
    ensures |Section(q, "group_by").value| > 0 ==> QueryLines(q).value[1] == Heading("group_by")
    ensures NamesAt(QueryLines(q).value, 2, Section(q, "group_by").value)
  {
    QueryLinesShape(q);
    var groups := Section(q, "group_by").value;
    var gb := Block("group_by", Traverse(ItemName, groups).value);
    var ab := Block("aggregate", Traverse(ItemName, Section(q, "aggregate").value).value);
    var head := [QueryHeader(Field(q, "name"), Field(q, "from"))];
    Regroup(head, gb, ab, WhereLines(Field(q, "where")), ["}"]);
    BlockAt(QueryLines(q).value, 1, head, "group_by", groups, Traverse(ItemName, groups).value,
            ab + WhereLines(Field(q, "where")) + ["}"]);
    BlockHeadingAt(QueryLines(q).value, 1, head, "group_by", groups, Traverse(ItemName, groups).value,
                   ab + WhereLines(Field(q, "where")) + ["}"]);
  }

  /** When there are aggregates, the `aggregate:` heading follows the group
      block and each aggregate contributes its name, in input order. */
  lemma QueryAggregateNames(q: Fields)
    requires QueryLines(q).Success?
    ensures Section(q, "aggregate").Success?
    ensures Section(q, "group_by").Success?
    ensures |QueryLines(q).value| > 1 + BlockSpan(Section(q, "group_by").value) + BlockSpan(Section(q, "aggregate").value)
    ensures |Section(q, "aggregate").value| > 0 ==>
              QueryLines(q).value[1 + BlockSpan(Section(q, "group_by").value)] == Heading("aggregate")
    ensures NamesAt(QueryLines(q).value, 1 + BlockSpan(Section(q, "group_by").value) + 1, Section(q, "aggregate").value)
  {
    QueryLinesShape(q);
    var groups := Section(q, "group_by").value;
    var aggs := Section(q, "aggregate").value;
    var groupNames := Traverse(ItemName, groups).value;
    TraverseLength(ItemName, groups);
    BlockSize("group_by", groupNames, groups);
    var head := [QueryHeader(Field(q, "name"), Field(q, "from"))];
    var gb := Block("group_by", groupNames);
    var ab := Block("aggregate", Traverse(ItemName, aggs).value);
    Regroup(head, gb, ab, WhereLines(Field(q, "where")), ["}"]);
    BlockAt(QueryLines(q).value, 1 + BlockSpan(groups), head + gb, "aggregate", aggs, Traverse(ItemName, aggs).value,
            WhereLines(Field(q, "where")) + ["}"]);
    BlockHeadingAt(QueryLines(q).value, 1 + BlockSpan(groups), head + gb, "aggregate", aggs,
                   Traverse(ItemName, aggs).value, WhereLines(Field(q, "where")) + ["}"]);
  }

  /** From position `at` on, `lines` holds the indented name of each entry,
      in order. */
  predicate NamesAt(lines: seq<string>, at: nat, items: seq<Value>)
  {
    forall i :: 0 <= i < |items| ==>
      && at + i < |lines| && ItemName(items[i]).Success?
      && lines[at + i] == "    " + Text(ItemName(items[i]).value)
  }

  lemma BlockSize<T>(title: string, names: seq<Value>, entries: seq<T>)
    requires |names| == |entries|
    ensures |Block(title, names)| == BlockSpan(entries)
  {
  }

  /** Inside `head + Block(title, names) + tail`, where the names are those of
      `items`: the heading, then one indented line per item. */
  lemma BlockAt(lines: seq<string>, at: nat, head: seq<string>, title: string, items: seq<Value>,
                names: seq<Value>, tail: seq<string>)
    requires Traverse(ItemName, items) == Success(names)
    requires |head| == at && lines == head + Block(title, names) + tail
    ensures |lines| == at + BlockSpan(items) + |tail|
    ensures NamesAt(lines, at + 1, items)
  {
    TraverseLength(ItemName, items);
    BlockSize(title, names, items);
    BlockLinesAt(lines, at, head, title, names, tail);
    NamesOfItems(lines, at + 1, items, names);
  }

  /** ... and a block with items starts with its heading. */
  lemma BlockHeadingAt(lines: seq<string>, at: nat, head: seq<string>, title: string, items: seq<Value>,
                       names: seq<Value>, tail: seq<string>)
    requires Traverse(ItemName, items) == Success(names)
    requires |head| == at && lines == head + Block(title, names) + tail
    ensures |items| > 0 ==> at < |lines| && lines[at] == Heading(title)
  {
    TraverseLength(ItemName, items);
    BlockLinesAt(lines, at, head, title, names, tail);
  }

  /** The lines of a block in place: its heading, then each name indented. */
  lemma BlockLinesAt(lines: seq<string>, at: nat, head: seq<string>, title: string, names: seq<Value>,
                     tail: seq<string>)
    requires |head| == at && lines == head + Block(title, names) + tail
    ensures |names| > 0 ==> at < |lines| && lines[at] == Heading(title)
    ensures forall i :: 0 <= i < |names| ==> at + 1 + i < |lines| && lines[at + 1 + i] == "    " + Text(names[i])
  {
    if names != [] {
      var b := [Heading(title)] + Indented(names);
      assert Block(title, names) == b;
      var body := Indented(names);
      AfterHeadingAt(lines, at, head, Heading(title), body, tail);
      IndexInMiddle(head, b, tail, 0);
      forall i | 0 <= i < |names| ensures at + 1 + i < |lines| && lines[at + 1 + i] == "    " + Text(names[i]) {
        assert lines[at + 1 + i] == body[i];
      }
    }
  }

  /** The lines after a heading placed at `at`. */
  lemma AfterHeadingAt(lines: seq<string>, at: nat, head: seq<string>, heading: string, body: seq<string>,
                       tail: seq<string>)
    requires |head| == at && lines == head + ([heading] + body) + tail
    ensures forall i :: 0 <= i < |body| ==> at + 1 + i < |lines| && lines[at + 1 + i] == body[i]
  {
    forall i | 0 <= i < |body| ensures at + 1 + i < |lines| && lines[at + 1 + i] == body[i] {
      IndexInMiddle(head, [heading] + body, tail, 1 + i);
    }
  }

  /** Lines holding the indented names of a walk hold the names of its items. */
  lemma NamesOfItems(lines: seq<string>, at: nat, items: seq<Value>, names: seq<Value>)
    requires Traverse(ItemName, items) == Success(names)
    requires forall i :: 0 <= i < |names| ==> at + i < |lines| && lines[at + i] == "    " + Text(names[i])
    ensures NamesAt(lines, at, items)
  {
    TraverseValues(ItemName, items);
    forall i | 0 <= i < |items|
      ensures at + i < |lines| && ItemName(items[i]).Success?
              && lines[at + i] == "    " + Text(ItemName(items[i]).value)
    {
      assert names[i] == ItemName(items[i]).value;
    }
  }

  // ---------------------------------------------------------------- output paths

  /** Where the generator writes a definition: `<dir>/<normalized name>.malloy`,
      the name read as text, empty when absent. */
  function ArtifactPath(dir: string, definition: Fields): (p: string)
    ensures IsPrefix(dir + "/", p)
    ensures |p| > |dir| + 1 + |".malloy"|
    ensures p[|p| - |".malloy"|..] == ".malloy"
    ensures p[|dir| + 1..|p| - |".malloy"|]
            == NameNormalizer.NormalizeName(Text(FieldOr(definition, "name", Str(""))))
    ensures NameNormalizer.IsNormalName(p[|dir| + 1..|p| - |".malloy"|])
  {
    var stem := NameNormalizer.NormalizeName(Text(FieldOr(definition, "name", Str(""))));
    PathParts(dir + "/", stem, ".malloy");
    dir + "/" + stem + ".malloy"
  }

  lemma PathParts(a: string, b: string, c: string)
    ensures (a + b + c)[..|a|] == a
    ensures (a + b + c)[|a|..|a + b + c| - |c|] == b
    ensures (a + b + c)[|a + b + c| - |c|..] == c
  {
  }

  function SourcePath(src: Fields): string
  {
    ArtifactPath("sources", src)
  }

  function QueryPath(q: Fields): string
  {
    ArtifactPath("queries", q)
  }
}
