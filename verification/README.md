# ThingsCLI export core in Dafny

This project models the rendering half of `ThingsCLI` in `things_cli/cli.py`, the command line front end to the Things 3 to-do database. A query hands it a tree of task records. Each record is a dictionary of fields, and it may nest child records under `items` and `checklist`. `print_tasks` can prune the tree to areas and projects. It then writes the tree in exactly one format: JSON, an OPML outline, CSV, a mermaid-js Gantt chart, or an indented text listing.

The project has six modules:

- `Records` (records.dfy): the record tree. It also holds the pre-order reference enumeration `Tour` that the order and count lemmas are stated against, and the first-truthy "context" lookup.
- `Strings` (also in records.dfy): ASCII lower-casing, substring search, colon replacement and joining.
- `Csv` (csv.dfy): `csv_dumps`, `csv_header` and `csv_converter`.
- `Outline` (outline.dfy): `opml_convert`/`opml_dumps` as an element tree, and `txt_dumps`.
- `Gantt` (gantt.dfy): `gantt_add_task` and `gantt_dumps`.
- `Dispatch` (dispatch.dfy): `print_tasks`. This covers the two-level only-projects pruning and the choice of renderer.

How the model is built:

- The loops of the source are methods with loop invariants. The recursion of the source is mutual recursion between a loop method and a per-record method.
- Each method is proved equal to a specification function.
- Lemmas relate those functions to the pre-order `Tour`. They cover counts, order, first-seen uniqueness, label formats, entry fields, deduplication and idempotence of pruning.
- Renderers that pop `items` or `checklist` return the updated records next to their output. The contracts say which keys each one removes: `txt_dumps` keeps `checklist`, and the Gantt path changes nothing.

Some behaviours of the code are easy to misread. The model keeps each one as the code has it:

- `csv_header` recurses only into `items` (`things_cli/cli.py:157`). Keys that appear only on checklist records are therefore not in the header, and writing such a row makes `DictWriter` raise. The model states this as a precondition of `CsvDumps`.
- `txt_dumps` pops `items` but not `checklist` (`things_cli/cli.py:217`). Rendering the same tree a second time therefore repeats the checklist lines. `Outline.TxtSecondPass` states this for a record whose checklist records are leaves.
- A reader might expect two same-section records titled "Buy milk" and "buy milk extra" to give one Gantt line. The code gives one line only when "buy milk extra" is filed first. Filed the other way round, both lines are kept, because "buy milk extra" is not a substring of the "Buy milk" line (`Gantt.BuyMilkFirst`, `Gantt.ExtraFirst`).
- The Gantt duplicate test looks for the lower-cased title anywhere in an existing line of the section, not just in its title. The line also carries the `:milestone`/`:active` marker, the dates and `1h`. So a record titled "Milestone" is dropped from a section that already holds a milestone (`Gantt.MilestoneSwallowed`). The model keeps this behaviour as written.

## Model

| member | source | states |
|---|---|---|
| Records.GetDistinct | things_cli/cli.py:107-113 | On a record whose plain keys are distinct, as they are in a dict, `get` on a stored key gives the value stored under it. |
| Records.FirstTruthyPicks | things_cli/cli.py:107-113 | The `or` chain gives nothing exactly when every key is falsy. Otherwise it gives a truthy value that sits at some key, with every earlier key falsy. |
| Strings.ReplaceColons | things_cli/cli.py:115 | The result has the same length and no colon. Each colon becomes a space and every other character is unchanged. |
| Csv.Extend | things_cli/cli.py:156 | Extending keeps the old names as a prefix. Its members are the old names plus the new keys, and it adds no duplicate. |
| Csv.ExtendAppend | things_cli/cli.py:156 | Extending by two key lists in turn is the same as extending by their concatenation. |
| Csv.ExtendInPlace | things_cli/cli.py:156 | The loop that appends each unseen key leaves the list equal to the first-seen extension `Extend`. |
| Csv.ExtendFresh | things_cli/cli.py:156 | Keys that are distinct and not yet listed are appended in their own order. |
| Csv.CollectHeader | things_cli/cli.py:153-157 | The recursive collection equals first-seen deduplication of the dict keys of the records on the `items`-only pre-order tour. |
| Csv.HeaderIsFirstSeen | things_cli/cli.py:153-157 | For any starting list, the collected header is the first-seen extension by the keys of the `items`-only pre-order tour. |
| Csv.RemoveAfterExtend | things_cli/cli.py:138-141 | Removing a key after deduplication equals deduplicating with that key dropped from the stream. |
| Csv.CsvHeaderFirstSeen | things_cli/cli.py:136-141 | The header csv_dumps writes is the first-seen list of the plain keys met on the `items`-only tour. |
| Csv.CsvHeaderFacts | things_cli/cli.py:136-141 | The header has no duplicates and never holds `items` or `checklist`. A key is in it iff some record on the `items`-only tour has it. Every prefix of the key stream is covered by the header. |
| Csv.LeafHeader | things_cli/cli.py:136-157 | For a lone record with an empty `items` and no checklist, the header is exactly its own keys in order. |
| Csv.WriteReportHeader | things_cli/cli.py:136-141 | The "Write report"/"Today" record gives the header `title`, `start`. |
| Csv.RowOfColumns | things_cli/cli.py:168 | A written row has exactly the header's columns. A column the record lacks holds "" (the writer's `restval`). Any other column holds the record's value. |
| Csv.RowOfFields | things_cli/cli.py:165-168 | A row depends only on the record's plain fields, so popping the structural keys does not change it. |
| Csv.ConvertTask | things_cli/cli.py:163-168 | One record yields the rows of its items, then of its checklist, then its own row. It comes back with both structural keys removed. |
| Csv.Convert | things_cli/cli.py:159-168 | The rows are the post-order rows of the list. A `True` child list yields nothing and stays as it is. Every record comes back with its fields unchanged and no `items` or `checklist`. |
| Csv.RowsArePermutation | things_cli/cli.py:159-168 | The post-order rows are a permutation of one row per record on the pre-order tour through `items` and `checklist`. |
| Csv.RowsCount | things_cli/cli.py:159-168 | There is exactly one row per reachable record. |
| Csv.WriteReportRow | things_cli/cli.py:159-168 | The "Write report" record gives the single row title = "Write report", start = "Today". |
| Csv.CsvDumps | things_cli/cli.py:133-151 | The header is first-seen, duplicate-free and without structural keys. It holds exactly the keys on the `items` tour. There is one post-order row per reachable record, and the top-level records come back stripped of both structural keys. |
| Outline.LabelFormat | things_cli/cli.py:189-194 | The label starts with the title. It is `title (Scheduled: start_date)` when start_date is truthy, else `title (start)` when start is truthy, else the bare title. |
| Outline.OpmlTask | things_cli/cli.py:187-198 | One record's outline is its label over the outlines of its items followed by those of its checklist. The record comes back with both structural keys removed. |
| Outline.OpmlConvert | things_cli/cli.py:182-198 | The outlines are appended to the siblings in order. A `True` child list adds nothing, and every record loses both structural keys. |
| Outline.OutlinesFollowTour | things_cli/cli.py:182-198 | Flattening the outline tree gives exactly one (label, depth) entry per record of the pre-order tour through `items` then `checklist`. |
| Outline.OutlineCount | things_cli/cli.py:182-198 | There is exactly one outline element per reachable record. |
| Outline.OpmlDumps | things_cli/cli.py:170-180 | The document title is "Things 3 Database". The body flattens to the labels of the pre-order tour at their depths, and the top-level records lose both structural keys. |
| Outline.DetailsFormat | things_cli/cli.py:207-214 | The details are empty, or the start_date alone, or the context alone, or both joined by a space, a vertical bar and a space, according to which of the two is truthy. |
| Outline.TxtLineFormat | things_cli/cli.py:215 | A text line is the indentation, `- `, the title, ` (` followed by the details, and `)` with a newline, with the length that adds up to. |
| Outline.TxtTask | things_cli/cli.py:205-220 | One record appends its line, then its items' lines, then its checklist's lines, all indented two more spaces. It loses `items` and keeps its checklist. |
| Outline.TxtDumps | things_cli/cli.py:200-222 | The text grows by the listing of the given records. A `True` list adds nothing. Each record comes back without `items`, with its checklist records likewise popped. |
| Outline.TxtFollowsTour | things_cli/cli.py:200-222 | The listing is the concatenation of one line per record of the pre-order tour, indented by two spaces per depth. |
| Outline.TxtPoppedFacts | things_cli/cli.py:216-220 | After txt_dumps every record keeps its fields, has no `items` and still has its checklist. A second pass over the `items` tour sees only the top-level records. |
| Outline.TxtSecondPass | things_cli/cli.py:216-220 | For a record whose checklist records are leaves, rendering it after txt_dumps has popped it prints its line again, then the lines of its checklist records again. |
| Outline.WriteReportExample | things_cli/cli.py:200-222 | The "Write report" record started "Today" lists as exactly `- Write report (Today)` followed by a newline. |
| Gantt.MakeEntry | things_cli/cli.py:107-125 | The entry title is the record's title with each colon replaced by a space. The context is the first truthy context field or "". A falsy deadline becomes `1h`. A start_date-less record with a real deadline starts at it with a `1h` deadline. A surviving real deadline differs from the start. A dated record's real deadline that differs from its start is kept. A record with neither a truthy start_date nor a real deadline keeps its falsy start, so it is not filed. The visual is `:milestone` iff the deadline is `1h`, else `:active`. |
| Gantt.EntryLine | things_cli/cli.py:131 | An entry line starts with four spaces and ends with a newline. |
| Gantt.MatchingEmpty | things_cli/cli.py:130 | The joined matches are empty iff every section line whose lower-cased text contains the title is itself empty. In a valid chart, where lines are non-empty, that means no line matches. |
| Gantt.JoinMatching | things_cli/cli.py:130 | The loop's result is the concatenation of the section lines that contain the needle. |
| Gantt.FileSection | things_cli/cli.py:128-131 | A non-duplicate line is appended to its section. A duplicate leaves the chart unchanged. |
| Gantt.FileOthers | things_cli/cli.py:128-131 | Filing a line leaves every other section unchanged. |
| Gantt.FileGroups | things_cli/cli.py:128-129 | The section order is unchanged, or the new context is added last. |
| Gantt.FileValid | things_cli/cli.py:127-131 | Filing keeps the sections distinct and non-empty, with non-empty lines, and the section then exists. |
| Gantt.AddTaskEffect | things_cli/cli.py:127-131 | A record is appended to its context's section iff it has a truthy start, no stop_date, and no matching line. Otherwise the chart is unchanged. Other sections are untouched, and sections keep first-insertion order. |
| Gantt.GanttAddTask | things_cli/cli.py:103-131 | The method files the record exactly as the chart function says. |
| Gantt.AddAllAppend | things_cli/cli.py:92-94 | Filing two record sequences in turn is filing their concatenation. |
| Gantt.AddAllValid | things_cli/cli.py:92-99 | Filing any records keeps the chart valid and only extends the section order. |
| Gantt.GanttTask | things_cli/cli.py:92-94 | One record files itself, then its `items` subtree, in pre-order. |
| Gantt.GanttCollect | things_cli/cli.py:92-94 | The loop files the records of the `items`-only pre-order tour in order. |
| Gantt.Header | things_cli/cli.py:96 | A section header starts with two spaces and `section ` and ends with a newline. |
| Gantt.HeaderNotEntry | things_cli/cli.py:96-98 | A section header line never equals an entry line: the header has `s` where every entry line still has indentation. |
| Gantt.ListingHolds | things_cli/cli.py:96-99 | Every section header and every entry line appears in the listing, and the listing holds nothing else. |
| Gantt.AppendAll | things_cli/cli.py:98-99 | The inner loop appends the section's lines in order. |
| Gantt.Render | things_cli/cli.py:96-99 | The text is each section header followed by its lines, in section order. |
| Gantt.GanttDumps | things_cli/cli.py:84-101 | The chart is valid, and the text renders the chart built from the `items`-only pre-order tour. |
| Gantt.HomeTaskEntry | things_cli/cli.py:115-125 | A colon-free record started 2024-01-01 in project "Home" gives a `:milestone` entry with deadline `1h`. |
| Gantt.FileOne | things_cli/cli.py:128-131 | Against a one-line section, a line is dropped iff the lower-cased existing line contains the title. |
| Gantt.BuyMilkFirst | things_cli/cli.py:130-131 | Filing "Buy milk" then "buy milk extra" keeps both lines. |
| Gantt.ExtraFirst | things_cli/cli.py:130-131 | Filing "buy milk extra" then "Buy milk" keeps only the first line. |
| Gantt.MilestoneSwallowed | things_cli/cli.py:130-131 | Filing "Launch" then "Milestone" keeps only "Launch", because "milestone" occurs in the `:milestone` marker. |
| Dispatch.SelectMode | things_cli/cli.py:69-82 | Exactly one renderer is chosen, with precedence JSON, OPML, CSV, Gantt, text, and each is chosen iff its flag is the first one set. |
| Dispatch.FilterMembers | things_cli/cli.py:50-54 | The comprehension keeps exactly the children typed "area" or "project". |
| Dispatch.FilterAppend | things_cli/cli.py:50-54 | Filtering preserves order: the filter of a concatenation is the concatenation of the filters. |
| Dispatch.FilterTwice | things_cli/cli.py:50-54 | Filtering is idempotent. |
| Dispatch.FilterAreas | things_cli/cli.py:50-54 | The comprehension's loop yields the filtered list. |
| Dispatch.PruneChildren | things_cli/cli.py:58-67 | Every kept child is pruned in place, one for one. |
| Dispatch.KeepPruned | things_cli/cli.py:58-67 | Pruning a kept child does not change its type, so it is still kept. |
| Dispatch.PruneChildrenTwice | things_cli/cli.py:58-67 | Pruning kept children twice is pruning them once. |
| Dispatch.PruneTopShape | things_cli/cli.py:47-67 | A pruned record keeps its fields and checklist. Its items are exactly its area/project children, in order, and each keeps fields and checklist and always has an `items` list, its own children filtered the same way. Deeper records are untouched. |
| Dispatch.PruneTopTwice | things_cli/cli.py:47-67 | Pruning is idempotent. |
| Dispatch.PruneTask | things_cli/cli.py:49-67 | The two nested comprehensions over one record give the pruned record. |
| Dispatch.Prune | things_cli/cli.py:47-67 | Every top-level record is replaced by its pruned form. |
| Dispatch.PrintTasks | things_cli/cli.py:44-82 | Exactly one output is produced, the one its flags select. JSON carries the (pruned) tree. OPML carries the outline of the tour. CSV carries the first-seen header and the post-order rows. Gantt is the four-line preamble, the rendered chart and the newline `print` adds. Text is the listing. |

## Left out

- Argument parsing, the database queries and `print` itself. `PrintTasks` returns what would be printed. The newline `print` adds after the OPML and CSV strings is not modelled.
- JSON encoding, XML serialisation with pretty-printing, and CSV quoting/escaping. For these modes the output holds the value handed to the encoder: the tree, the element tree, and the header with its row maps.
- Values other than strings are abstracted to their `str()` text and their truthiness. Python equality between different non-string values (for example `start == deadline` on dates) is equality of that abstraction.
- `str.lower` is modelled on ASCII letters only.
- Python exceptions are preconditions, not modelled error paths. They are: a missing `title`, iterating a `True` child list in the Gantt path, in `csv_header` or in the pruning loops, `str.replace` or `join` on a non-string, a missing `type` in the pruning filter, and `DictWriter` rejecting a key absent from the header.
- In-place mutation is modelled by returning the updated records. Aliasing is not modelled: a record object shared between two places in the tree would be popped once in the source.
- `Csv.DictKeys` lists `items` and `checklist` after the plain keys, while a dict holds them where they were inserted. The list `Csv.CollectHeader` builds may therefore place those two keys differently from `fieldnames` before they are removed. The written header is the same either way (`Csv.CsvHeaderFirstSeen`).
- A child key present with the value `None` (as opposed to missing) is not represented.
- A record's plain fields are a sequence, so the type admits a repeated key that a dict cannot hold. Distinct keys are the predicate `Records.DistinctKeys`, not a type invariant. On a repeated key `Get` takes the first occurrence.
- `Gantt.GanttDumps`: each recursive call of `gantt_dumps` in the source also renders the whole chart into a string that it discards. The model does not build those strings.
- `Dispatch.Pruned`: states only that pruning keeps the number of top-level records. Its shape is stated by `Dispatch.PruneTopShape` for each record.
