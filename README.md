# Malloy warehouse migration: scaffold generator and readiness report

This project models the two scripts of the Malloy warehouse-migration skill
that turn a migration mapping into artifacts. The mapping is a YAML or JSON
document with `sources` and `queries` sections.

- The **scaffold generator** (`generate_malloy_scaffold.py`) renders one
  Malloy `source:` block per source and one `query:` block per query, and
  writes each under a file name made safe by `normalize_name`.
- The **readiness report** (`migration_readiness_report.py`) does the
  following:
  - counts the definitions of the mapping;
  - collects structural blockers, such as missing names, tables, measures
    or `from`;
  - counts the definitions holding TODO/TBD markers;
  - computes a readiness score from 0 to 100 out of coverage, markers and
    blockers;
  - prints everything as a markdown report.

The Dafny modules follow that structure:

| file | module | what it holds |
|---|---|---|
| `strings.dfy` | `Strings` | ASCII `lower()`, `in` on strings, `str(n)`, and `"\n".join(lines) + "\n"` with its inverse |
| `mapping.dfy` | `Mapping` | the parsed value tree: Python truthiness, `dict.get`, what `for x in v` walks over, `str()` in f-strings; the `SystemExit`, `KeyError` and `TypeError` failures as a `Result`; a loop that stops at the first failure (`Traverse`) |
| `normalize.dfy` | `NameNormalizer` | `normalize_name` |
| `scaffold.dfy` | `Scaffold` | `iter_items`, `render_source` with its joins, `render_query`, and the output path of each definition |
| `readiness.dfy` | `Readiness` | `contains_todo`, `safe_list`, `readiness_score`, `collect_blockers` and `summarize` |

Each rendering loop is written as a method that appends lines step by step
as the script does. The method is proved equal to a function that specifies
its whole output. Lemmas about that function state what the output means:
- when rendering fails, and with which error;
- how many lines there are and which line holds which entry, in order;
- that splitting the text at its newlines gives the lines back.

The readiness score is proved to be the clamped sum of its terms, to lie in
0..100, and to move in the right direction with coverage, markers and
blockers.

The model follows the scripts' code in a few places where a plain reading of
the tool's behaviour would suggest otherwise:
- In the scaffold generator, a section such as `dimensions` that is a string
  or an object is not rejected. Python walks over the string's characters or
  the object's keys, and `Iterate` models exactly that. Only `None`, a
  boolean or a number raises a `TypeError`.
- A dimension or measure whose `name` is missing raises `KeyError` even when
  it has an `expr`, because `dim['name']` is evaluated as the default
  argument of `get`.
- The readiness report never fails on malformed sections: `safe_list`
  replaces any non-list with an empty list, and entries that are not objects
  are dropped.

## Model

Source paths are relative to the repository root.

| member | source | states |
|---|---|---|
| Strings.Lower | skills/malloy-warehouse-migration/scripts/generate_malloy_scaffold.py:33 | `lower()` keeps the length and maps each character on its own: A-Z to a-z, every other character unchanged |
| Strings.Digits | skills/malloy-warehouse-migration/scripts/migration_readiness_report.py:117-126 | `str(n)` of a count is a non-empty string of decimal digits, with no leading zero unless the count is 0 |
| Strings.DigitsRoundTrip | skills/malloy-warehouse-migration/scripts/migration_readiness_report.py:117-126 | the digits printed for a number read back as that number, so the report shows the exact count |
| Strings.UnlinesRoundTrip | skills/malloy-warehouse-migration/scripts/generate_malloy_scaffold.py:87 | splitting `"\n".join(lines) + "\n"` at newlines gives back the lines, then one empty piece, when no line holds a newline |
| Mapping.Falsy | skills/malloy-warehouse-migration/scripts/generate_malloy_scaffold.py:49 | `not v` holds for exactly six values: `None`, `False`, `0`, `""`, `[]` and `{}` |
| Mapping.Lookup | skills/malloy-warehouse-migration/scripts/generate_malloy_scaffold.py:47-48 | a key is found exactly when the object binds it, and the value found is bound to that key |
| Mapping.FieldOr | skills/malloy-warehouse-migration/scripts/generate_malloy_scaffold.py:65 | `d.get(key, default)` gives the default when the key is absent and the bound value otherwise |
| Mapping.IterateSpec | skills/malloy-warehouse-migration/scripts/generate_malloy_scaffold.py:56 | a loop walks a list's items, a string's one-character strings, or a dict's keys, in order; it fails exactly on `None`, booleans and numbers |
| Mapping.Section | skills/malloy-warehouse-migration/scripts/generate_malloy_scaffold.py:56 | a section whose key is absent is the empty list |
| Mapping.TraverseSpec | skills/malloy-warehouse-migration/scripts/generate_malloy_scaffold.py:56-60 | a loop whose body may raise succeeds exactly when every item does, and then yields one result per item, in order; otherwise it fails with the error of the first failing item, all items before it having succeeded |
| Mapping.TraverseStep | skills/malloy-warehouse-migration/scripts/generate_malloy_scaffold.py:56-60 | one more loop iteration appends the item's result, or ends the whole loop with that item's error |
| NameNormalizer.Substitute | skills/malloy-warehouse-migration/scripts/generate_malloy_scaffold.py:33 | after the substitution only letters, digits and `_` remain |
| NameNormalizer.SubstituteKeepsNames | skills/malloy-warehouse-migration/scripts/generate_malloy_scaffold.py:33 | a string of letters, digits and `_` is left unchanged by the substitution |
| NameNormalizer.SubstituteCollapsesRun | skills/malloy-warehouse-migration/scripts/generate_malloy_scaffold.py:33 | a whole run of other characters becomes exactly one `_` |
| NameNormalizer.StripLeading | skills/malloy-warehouse-migration/scripts/generate_malloy_scaffold.py:33 | stripping the front leaves a suffix of the input that does not start with `_`, and everything removed is `_` |
| NameNormalizer.StripTrailing | skills/malloy-warehouse-migration/scripts/generate_malloy_scaffold.py:33 | stripping the back leaves a prefix of the input that does not end with `_`, and everything removed is `_` |
| NameNormalizer.StripSpec | skills/malloy-warehouse-migration/scripts/generate_malloy_scaffold.py:33 | `strip("_")` of a string of letters, digits and `_` is again such a string, and has `_` at neither end |
| NameNormalizer.StripRemovesUnderscores | skills/malloy-warehouse-migration/scripts/generate_malloy_scaffold.py:33 | `strip("_")` removes only underscores: the input is a run of `_`, then the result, then a run of `_` |
| NameNormalizer.NormalizeName | skills/malloy-warehouse-migration/scripts/generate_malloy_scaffold.py:33 | the result is a non-empty string of lower-case letters, digits and `_` that neither starts nor ends with `_`; the empty string becomes `unnamed` |
| NameNormalizer.NormalizeFixedPoints | skills/malloy-warehouse-migration/scripts/generate_malloy_scaffold.py:33 | a string is left unchanged by `normalize_name` exactly when it already has the shape of its results |
| NameNormalizer.NormalizeIdempotent | skills/malloy-warehouse-migration/scripts/generate_malloy_scaffold.py:33 | normalizing twice gives the same name as normalizing once |
| NameNormalizer.NormalizeExamples | skills/malloy-warehouse-migration/scripts/generate_malloy_scaffold.py:33 | `""` gives `unnamed`, `Order Items!!` gives `order_items`, `__Revenue__` gives `revenue` |
| NameNormalizer.StripDoubleUnderscores | skills/malloy-warehouse-migration/scripts/generate_malloy_scaffold.py:33 | a word with no `_` at its ends, wrapped in `__` on both sides, is stripped back to the word |
| Scaffold.IterItems | skills/malloy-warehouse-migration/scripts/generate_malloy_scaffold.py:36-43 | succeeds exactly when every item is a string or a dict; a string becomes `{name: s, expr: s}` and a dict is passed on as it is; otherwise it fails on the first unsupported item |
| Scaffold.EntryLineSpec | skills/malloy-warehouse-migration/scripts/generate_malloy_scaffold.py:56-60 | a dimension or measure line is `  <kind>: <name> is <expr or name>`; it exists exactly for strings and for dicts with a `name`; a dict without one is a `KeyError`, and anything else an unsupported item |
| Scaffold.JoinKeyword | skills/malloy-warehouse-migration/scripts/generate_malloy_scaffold.py:65-66 | `join_many` exactly when `relationship` is the string `many`, `join_one` otherwise, including when it is absent |
| Scaffold.JoinLineSucceeds | skills/malloy-warehouse-migration/scripts/generate_malloy_scaffold.py:62-84 | a join renders exactly when it is a dict with a truthy `name`, a truthy `on`, and a truthy `target_source` or `table`; each other case raises its own error, tested in the script's order |
| Scaffold.JoinLineText | skills/malloy-warehouse-migration/scripts/generate_malloy_scaffold.py:75-80 | the join line names `target_source` when it is truthy and `table('<table>')` otherwise, followed by `with <on>` |
| Scaffold.PrimaryKeyLines | skills/malloy-warehouse-migration/scripts/generate_malloy_scaffold.py:53-54 | there is one primary-key line exactly when `primary_key` is truthy |
| Scaffold.AppendLines | skills/malloy-warehouse-migration/scripts/generate_malloy_scaffold.py:56-60 | appending one line per entry gives the lines followed by the entries' lines, or the first entry's failure |
| Scaffold.RenderSource | skills/malloy-warehouse-migration/scripts/generate_malloy_scaffold.py:46-87 | the step-by-step rendering equals the specified source text, failures included |
| Scaffold.SourceSucceedsIff | skills/malloy-warehouse-migration/scripts/generate_malloy_scaffold.py:46-84 | a source renders exactly when `name` and `table` are truthy and every dimension, measure and join renders; a falsy `name` or `table` fails first, with the `name`/`table` error |
| Scaffold.SourceLayout | skills/malloy-warehouse-migration/scripts/generate_malloy_scaffold.py:52-86 | the source block has 2 lines, plus one per primary key, dimension, measure and join; it opens with the header, shows the primary key next when there is one, and closes with `}` |
| Scaffold.SourceDimensionLines | skills/malloy-warehouse-migration/scripts/generate_malloy_scaffold.py:56-57 | the dimension lines follow the header and primary key, one per dimension, in order |
| Scaffold.SourceMeasureLines | skills/malloy-warehouse-migration/scripts/generate_malloy_scaffold.py:59-60 | the measure lines follow the dimensions, one per measure, in order |
| Scaffold.SourceJoinLines | skills/malloy-warehouse-migration/scripts/generate_malloy_scaffold.py:62-86 | the join lines follow the measures, one per join, in order, and only `}` comes after them |
| Scaffold.DimensionLineCount | skills/malloy-warehouse-migration/scripts/generate_malloy_scaffold.py:52-86 | exactly as many lines of a rendered source start with `  dimension: ` as the source has dimensions |
| Scaffold.SourceTextLines | skills/malloy-warehouse-migration/scripts/generate_malloy_scaffold.py:87 | the rendered source text splits back into its lines when no value holds a newline |
| Scaffold.ItemNameSpec | skills/malloy-warehouse-migration/scripts/generate_malloy_scaffold.py:97-98 | the name collected for a group or aggregate is the string itself or the dict's `name`; a dict without one is a `KeyError`, and anything else an unsupported item |
| Scaffold.Block | skills/malloy-warehouse-migration/scripts/generate_malloy_scaffold.py:101-106 | a block takes no lines for an empty list of names, and otherwise one heading line plus one line per name |
| Scaffold.Indented | skills/malloy-warehouse-migration/scripts/generate_malloy_scaffold.py:103 | each name is printed on its own line, indented by four spaces, in order |
| Scaffold.WhereLines | skills/malloy-warehouse-migration/scripts/generate_malloy_scaffold.py:107-108 | there is one `where:` line exactly when `where` is truthy |
| Scaffold.CollectNames | skills/malloy-warehouse-migration/scripts/generate_malloy_scaffold.py:97-98 | the name-collecting loop gives each entry's name in order, or the first entry's failure |
| Scaffold.AppendBlock | skills/malloy-warehouse-migration/scripts/generate_malloy_scaffold.py:101-106 | appending a block adds its heading and indented names after the existing lines |
| Scaffold.RenderQuery | skills/malloy-warehouse-migration/scripts/generate_malloy_scaffold.py:90-111 | the step-by-step rendering equals the specified query text, failures included |
| Scaffold.QuerySucceedsIff | skills/malloy-warehouse-migration/scripts/generate_malloy_scaffold.py:90-98 | a query renders exactly when `name` and `from` are truthy and every group and aggregate has a name; a falsy `name` or `from` fails with the `name`/`from` error |
| Scaffold.QueryLayout | skills/malloy-warehouse-migration/scripts/generate_malloy_scaffold.py:96-110 | the query block has the header, the group block, the aggregate block, an optional `where:` line and `}`; the length and the position of the `where:` line are given in those terms |
| Scaffold.QueryGroupNames | skills/malloy-warehouse-migration/scripts/generate_malloy_scaffold.py:101-103 | `  group_by:` comes right after the header when there are groups, followed by each group's name, in order |
| Scaffold.QueryAggregateNames | skills/malloy-warehouse-migration/scripts/generate_malloy_scaffold.py:104-106 | `  aggregate:` comes right after the group block when there are aggregates, followed by each aggregate's name, in order |
| Scaffold.ArtifactPath | skills/malloy-warehouse-migration/scripts/generate_malloy_scaffold.py:138-140 | a definition is written to `<dir>/<stem>.malloy`, where the stem is `normalize_name(str(definition.get("name", "")))` |
| Readiness.ContainsTodoLeaves | skills/malloy-warehouse-migration/scripts/migration_readiness_report.py:30-38 | `contains_todo` finds a marker exactly when some string reachable through list items and dict values, at any depth, contains `todo` or `tbd` in lower case; keys and other scalars are never searched |
| Readiness.ObjectSearchesValues | skills/malloy-warehouse-migration/scripts/migration_readiness_report.py:36-37 | a dict holds a marker exactly when the list of its values does, so keys are never searched |
| Readiness.ListSearchSplits | skills/malloy-warehouse-migration/scripts/migration_readiness_report.py:34-35 | a concatenated list holds a marker exactly when one of its parts does |
| Readiness.MarkedIgnoresCase | skills/malloy-warehouse-migration/scripts/migration_readiness_report.py:31-33 | marker detection gives the same answer on a string and on its lower-cased form |
| Readiness.ContainsTodoExamples | skills/malloy-warehouse-migration/scripts/migration_readiness_report.py:30-38 | `{owner: "TBD"}` is marked, `{todo: 1}` is not (keys are not searched), and a list of null, boolean and number is not |
| Readiness.SafeListSpec | skills/malloy-warehouse-migration/scripts/migration_readiness_report.py:54-55 | `safe_list` returns a list's items unchanged and the empty list for any other value |
| Readiness.ObjectsMembers | skills/malloy-warehouse-migration/scripts/migration_readiness_report.py:99-100 | a dict is among the kept entries exactly when it was an entry of the section |
| Readiness.ObjectsConcat | skills/malloy-warehouse-migration/scripts/migration_readiness_report.py:99-100 | filtering keeps order: filtering a concatenation concatenates the filtered parts |
| Readiness.ObjectsKeepsObjects | skills/malloy-warehouse-migration/scripts/migration_readiness_report.py:99-100 | a section made only of dicts is kept whole, in order |
| Readiness.ReadinessScore | skills/malloy-warehouse-migration/scripts/migration_readiness_report.py:58-78 | adding up the terms step by step gives the specified score, which lies in 0..100 |
| Readiness.RawScoreInRange | skills/malloy-warehouse-migration/scripts/migration_readiness_report.py:66-78 | with non-negative counts the unclamped sum already lies in 0..100, so the final clamp never changes it |
| Readiness.CoveragePointsRange | skills/malloy-warehouse-migration/scripts/migration_readiness_report.py:71-75 | the coverage term lies in 0..30 |
| Readiness.FullCoverage | skills/malloy-warehouse-migration/scripts/migration_readiness_report.py:71-73 | when every inventory table is mapped, coverage earns the full 30 points |
| Readiness.ScoreMonotoneInCoverage | skills/malloy-warehouse-migration/scripts/migration_readiness_report.py:71-73 | covering more inventory tables never lowers the score |
| Readiness.ScoreAntitoneInTodo | skills/malloy-warehouse-migration/scripts/migration_readiness_report.py:76 | more TODO markers never raise the score |
| Readiness.ScoreAntitoneInBlockers | skills/malloy-warehouse-migration/scripts/migration_readiness_report.py:77 | more blockers never raise the score |
| Readiness.ScoreExamples | skills/malloy-warehouse-migration/scripts/migration_readiness_report.py:58-78 | the counts of an empty mapping with no inventory score 45, and the counts of a clean one-source, one-query mapping covering its whole one-table inventory score 100 |
| Readiness.EmptyMappingScore | skills/malloy-warehouse-migration/scripts/migration_readiness_report.py:97-108 | `summarize` of a mapping with no sources and no queries, without an inventory, finds no blockers and scores 45 |
| Readiness.SourceBlockersSpec | skills/malloy-warehouse-migration/scripts/migration_readiness_report.py:83-89 | a source has at most three blockers, and none exactly when its `name` and `table` are truthy and its `measures` is a non-empty list |
| Readiness.QueryBlockersSpec | skills/malloy-warehouse-migration/scripts/migration_readiness_report.py:90-94 | a query has at most two blockers, and none exactly when its `name` and `from` are truthy |
| Readiness.CheckSource | skills/malloy-warehouse-migration/scripts/migration_readiness_report.py:84-89 | one pass of the source loop appends that source's blockers |
| Readiness.CheckQuery | skills/malloy-warehouse-migration/scripts/migration_readiness_report.py:91-94 | one pass of the query loop appends that query's blockers |
| Readiness.CollectBlockers | skills/malloy-warehouse-migration/scripts/migration_readiness_report.py:81-95 | the two loops give every source's blockers in order, followed by every query's |
| Readiness.SourceMessages | skills/malloy-warehouse-migration/scripts/migration_readiness_report.py:85-89 | every source blocker starts with `Source ` |
| Readiness.QueryMessages | skills/malloy-warehouse-migration/scripts/migration_readiness_report.py:92-94 | every query blocker starts with `Query ` |
| Readiness.BlockersOrdered | skills/malloy-warehouse-migration/scripts/migration_readiness_report.py:81-95 | a blocker lies among the first (source) part of the list exactly when it starts with `Source `, so no query blocker comes before a source blocker |
| Readiness.AllBlockersSpec | skills/malloy-warehouse-migration/scripts/migration_readiness_report.py:81-95 | there are no blockers exactly when no source and no query has one, and at most three per source plus two per query |
| Readiness.MappedTablesSpec | skills/malloy-warehouse-migration/scripts/migration_readiness_report.py:101 | a table is mapped exactly when some source has a truthy `table` whose text it is; there are no more mapped tables than sources |
| Readiness.TodoCount | skills/malloy-warehouse-migration/scripts/migration_readiness_report.py:102 | no more definitions are counted as marked than there are definitions |
| Readiness.TodoCountZero | skills/malloy-warehouse-migration/scripts/migration_readiness_report.py:102 | the marker count is zero exactly when no definition holds a marker |
| Readiness.SummaryScoreSpec | skills/malloy-warehouse-migration/scripts/migration_readiness_report.py:99-112 | the summary score lies in 0..100; it is the unclamped sum over the mapping's counts, mapped tables, markers and blocker count; the marker count is at most the number of definitions |
| Readiness.Overview | skills/malloy-warehouse-migration/scripts/migration_readiness_report.py:114-128 | the overview, through the `## Blocking Issues` heading, is ten lines |
| Readiness.Issues | skills/malloy-warehouse-migration/scripts/migration_readiness_report.py:129-133 | one line per blocker, or the single all-clear line when there are none |
| Readiness.Bullets | skills/malloy-warehouse-migration/scripts/migration_readiness_report.py:130-131 | each blocker is printed as `- <blocker>`, in order |
| Readiness.NextActions | skills/malloy-warehouse-migration/scripts/migration_readiness_report.py:134-138 | the closing section is five lines |
| Readiness.OverviewSteps | skills/malloy-warehouse-migration/scripts/migration_readiness_report.py:114-128 | the appends, including the branch on the inventory, build the specified overview |
| Readiness.IssueSteps | skills/malloy-warehouse-migration/scripts/migration_readiness_report.py:129-133 | the blocker loop, or the all-clear line, appends the specified issue lines |
| Readiness.ReportSteps | skills/malloy-warehouse-migration/scripts/migration_readiness_report.py:114-138 | all the appends build the specified report lines |
| Readiness.Summarize | skills/malloy-warehouse-migration/scripts/migration_readiness_report.py:98-139 | `summarize` returns the specified score and the report lines joined by newlines with a final newline |
| Readiness.ReportLayout | skills/malloy-warehouse-migration/scripts/migration_readiness_report.py:114-138 | the report has 15 lines plus one per blocker (one if there are none); the line at index 9 (the tenth) is `## Blocking Issues`, then the all-clear line or each blocker as a bullet, in order; then a blank line and `## Next Actions` |
| Readiness.ReportShowsCounts | skills/malloy-warehouse-migration/scripts/migration_readiness_report.py:117-126 | the report shows the score on its third line and the marker count on its eighth |

## Left out

- `load_mapping` (both scripts): file reading and JSON/YAML parsing are I/O. The model starts from the parsed value tree. Duplicate keys are resolved to the first binding, since parsed dicts have distinct keys.
- `load_inventory_tables`: CSV reading is I/O. The inventory is given as the set of table names it would return.
- `write_file`, `main`, `argparse`, `print` and the directory creation are I/O. `main`'s rejection of non-list `sources`/`queries` and non-dict entries is not modelled. Only the file name it derives is modelled (`Scaffold.ArtifactPath`).
- Readiness.ReadinessScore: coverage is a float in Python and `int(30 * coverage)` truncates it. The model uses the exact rational value rounded down, `(30 * covered) / total`. Floating-point rounding of that product is not modelled.
- Mapping.Text: `str()` of a list or dict is shown as a fixed placeholder (`[...]` or `{...}`), because Python's `repr` is not modelled. This affects the f-strings of both scripts and also `str(src.get("table"))` in `summarize` (migration_readiness_report.py:101). There, distinct list- or dict-valued tables collapse into one placeholder, so the mapped-table count can be lower than Python's and the inventory coverage can differ from it.
- Mapping.Value: the value tree has string keys only, and its scalars are `None`, booleans, integers and strings. This covers every JSON value except floats; the YAML 1.1 type resolution of PyYAML's `safe_load` is not modelled. Non-string keys, floats and dates (`datetime.date`) cannot be represented. In particular, a bare `on:` key in a YAML join resolves to the boolean key `True`, so `join.get("on")` (generate_malloy_scaffold.py:68) is `None` and the join fails with the missing-`on` error (generate_malloy_scaffold.py:72-73). The model treats `on` as the string key a JSON mapping has.
- Strings.Lower: `lower()` is modelled on ASCII letters only. Unicode case mapping is not modelled.
- The text of the scaffold generator's `SystemExit` messages is not modelled. Each failure is an `Error` constructor naming its cause and the offending value. The readiness report's blocker messages are modelled with their exact text.
- The scaffold generator's `iter_items` is a lazy generator. In `render_source` and `render_query`, the item-shape check and the `name` lookup therefore happen item by item. The model checks items in that same order (`Traverse`); `Scaffold.IterItems` models the generator on its own.
