# Schnauzer graph view: label wrapping and search filtering

Schnauzer is a browser front end that draws a directed graph (nodes and
edges with names, colours, types and descriptions) pushed to it by a Python
client. This project models the two pieces of its front end that have
behaviour of their own, and proves what they promise:

- **Label wrapping and node height** (`graph.js`). `formatLabel` turns a
  node or edge name into its display label. A falsy name becomes `''`. A
  name of at most 16 characters is shown as it is. A longer name is cut to
  32 characters and broken onto two lines: the last space, hyphen or
  underscore in the window `[mid - 8, mid]` becomes a newline, where `mid`
  is half the cut length rounded down; with no separator there, a newline
  is inserted at `mid`. The node `height` style is 40 for a name longer than
  12 characters and 25 otherwise.
- **Search filtering** (`ui-controls.js`). The search box's `input` handler
  lower-cases and trims the term. A blank term restores every node to
  opacity 1 and every link to 0.6. Otherwise a node matches when the term
  occurs in its label (falling back to its id), its type or its category.
  Matching nodes stay at opacity 1 and the rest drop to 0.2. The ids of the
  matching nodes are collected in a set, and a link is drawn at 0.8 only
  when both its endpoints are in that set, otherwise at 0.1. The clear
  button empties the box and runs the handler again.

Modules: `Values` (optional values and JavaScript's `||` on strings),
`Text` (`toLowerCase`, `trim`, `includes`), `Labels` (graph.js) and
`Search` (ui-controls.js). The methods follow the loops of the source, and
each is proved against a reference:

- `FormatLabel` is proved equal to the function `Label`.
- `OnSearchInput` is proved equal to the function `SearchStyles`.
- `MarkNodes` is proved against `MatchingIds` (the set it builds) and
  `NodeLevel` (each node's level).
- `MarkLinks` states outright that a link is emphasised exactly when both
  endpoint ids are in the set and faded otherwise.
- `OnClear` states the reset state outright: every node opaque, every link
  at its resting level.

The lemmas state the properties of the reference functions.

The drawn elements are abstracted: the d3 selections of nodes and links
are sequences of their bound data records, in selection order, and the
opacities the handler writes are returned as sequences of levels, one per
element. Opacities are the levels of the datatype `Search.Opacity`;
`Search.Alpha` gives each in hundredths.

graph.js has no incremental reconciliation of graph snapshots and no
message path tracing: `render` removes every element and adds the new
snapshot wholesale (schnauzer/static/js/graph.js:209 and 222), and trace
data only appears as an opaque field the client forwards. Neither is
modelled.

## Model

| member | source | states |
|---|---|---|
| `Values.Falsy` | schnauzer/static/js/graph.js:267 | defines JavaScript falsiness of an optional string: absent or empty; a truthy name is present and non-empty |
| `Values.Or` | schnauzer/static/js/graph.js:267 | `s \|\| fallback`: a falsy (absent or empty) string yields the fallback, a truthy one itself |
| `Labels.IsSeparator` | schnauzer/static/js/graph.js:274 | defines the break characters: space, hyphen and underscore; none of them is the newline, so a break always introduces a new character |
| `Labels.Truncated` | schnauzer/static/js/graph.js:269 | the processed name is the prefix of the name of length `min(len, 32)` |
| `Labels.WindowStart` | schnauzer/static/js/graph.js:273 | the lowest index searched is `max(0, mid - 8)`, which is `mid - 8` once `mid >= 8` |
| `Labels.LastSeparator` | schnauzer/static/js/graph.js:273-277 | returns the largest index in a range holding a space, hyphen or underscore, or none when the range holds none |
| `Labels.BreakOf` | schnauzer/static/js/graph.js:270-279 | for a processed name of 17 to 32 characters the break is inside `[mid - 8, mid]`, which lies within the name; it replaces the last separator in that window, and inserts at `mid` exactly when the window has no separator |
| `Labels.Wrap` | schnauzer/static/js/graph.js:275-279 | defines the two break forms, `p[..i] + "\n" + p[i+1..]` and `p[..i] + "\n" + p[i..]`: the newline sits at the break index after an unchanged prefix, and the length is kept or grows by one |
| `Labels.Label` | schnauzer/static/js/graph.js:266-280 | the reference for `formatLabel`: a falsy name gives `''`, a name of at most 16 characters passes through, a longer one is truncated and wrapped at `BreakOf`; every label has at most 33 characters and every long name's label holds a newline |
| `Labels.FormatLabel` | schnauzer/static/js/graph.js:266-280 | the descending scan with its early return computes exactly `Label(name)` |
| `Labels.LabelPassThrough` | schnauzer/static/js/graph.js:267 | a falsy name gives `''`; a name of at most 16 characters is returned unchanged |
| `Labels.ReplaceRoundTrip` | schnauzer/static/js/graph.js:275 | breaking at a separator keeps the length, puts the newline at its index, and putting the separator back restores the processed name; the characters change by one separator out, one newline in |
| `Labels.InsertRoundTrip` | schnauzer/static/js/graph.js:279 | inserting at the midpoint adds one character, the newline, and deleting it restores the processed name |
| `Labels.LabelWrapsOnce` | schnauzer/static/js/graph.js:269-279 | every name longer than 16 characters gets exactly one new newline, at an index in `[mid - 8, mid]`, either in place of a separator or inserted at `mid` when the window has none; labels are at most 33 characters |
| `Labels.LabelDrawsFromPrefix` | schnauzer/static/js/graph.js:269 | apart from one newline, every character of a label comes from the name's first 32 characters |
| `Labels.NodeHeight` | schnauzer/static/js/graph.js:67-70 | the height is 40 or 25, and 40 exactly when the name (missing counts as `''`) is longer than 12 characters |
| `Labels.HeightFitsLabel` | schnauzer/static/js/graph.js:61-70 | a short (25) node shows its name unchanged; every name long enough to be wrapped gets the tall (40) node |
| `Text.LowerChar` | schnauzer/static/js/ui-controls.js:34 | lowering maps `A`..`Z` to `a`..`z` and keeps every other character |
| `Text.Lower` | schnauzer/static/js/ui-controls.js:34 | the model's ASCII lowering keeps the length and lowers each character in place |
| `Text.IsWhitespace` | schnauzer/static/js/ui-controls.js:34 | defines the characters `trim` removes (ECMAScript's WhiteSpace and LineTerminator); none of them is a letter |
| `Text.LeadingEnd` | schnauzer/static/js/ui-controls.js:34 | the index where `trim` starts its result: the first non-whitespace character at or after a position, or the end; everything skipped is whitespace |
| `Text.TrailingStart` | schnauzer/static/js/ui-controls.js:34 | the index where `trim` ends its result: the smallest end such that everything after it is whitespace, stopping at the start of the result |
| `Text.Trim` | schnauzer/static/js/ui-controls.js:34 | the trimmed term is the slice of the input that starts at its first non-whitespace character; every character outside that slice is whitespace, and the slice is empty or starts and ends with non-whitespace |
| `Text.TrimEmptyIffBlank` | schnauzer/static/js/ui-controls.js:34-37 | a string trims to `''` exactly when all its characters are whitespace |
| `Text.TrimIdempotent` | schnauzer/static/js/ui-controls.js:34 | trimming twice is trimming once |
| `Text.Contains` | schnauzer/static/js/ui-controls.js:49-51 | defines `includes`: the needle is a prefix of some suffix of the haystack; a contained needle is no longer than the haystack, and the empty needle is contained everywhere |
| `Text.ContainsTransitive` | schnauzer/static/js/ui-controls.js:49-51 | `includes` is transitive |
| `Search.Alpha` | schnauzer/static/js/ui-controls.js:38-66 | each opacity level is a positive CSS opacity of at most 1 (1, 0.2, 0.6, 0.8, 0.1) |
| `Search.Normalize` | schnauzer/static/js/ui-controls.js:34 | defines the term as `Trim(Lower(raw))`; the result is lower case and neither starts nor ends with whitespace |
| `Search.LabelText` | schnauzer/static/js/ui-controls.js:48 | defines the label text searched: the lower-cased label, falling back to the id when the label is falsy; its length is that of the text chosen and it is lower case |
| `Search.Matches` | schnauzer/static/js/ui-controls.js:48-51 | defines the node match rule: the term occurs in the label text, the lower-cased type or the lower-cased category; the empty term would match every node, so without the blank-term early return links would end at 0.8 rather than their resting 0.6 |
| `Search.MatchingIds` | schnauzer/static/js/ui-controls.js:44-54 | defines the matching set as the ids of the matching nodes; the id of every matching node is in it |
| `Search.NodeLevel` | schnauzer/static/js/ui-controls.js:53-58 | a node's level during a search is opaque or dimmed, and opaque exactly when it matches |
| `Search.NodeLevels` | schnauzer/static/js/ui-controls.js:46-59 | one level per node, in selection order |
| `Search.LinkLevel` | schnauzer/static/js/ui-controls.js:62-68 | a link's level is emphasised or faded, and emphasised exactly when both endpoint ids are in the matching set |
| `Search.LinkLevels` | schnauzer/static/js/ui-controls.js:62-68 | one level per link, in selection order |
| `Search.SearchStyles` | schnauzer/static/js/ui-controls.js:33-69 | the reference for the handler: one style per node and per link; when the term is blank every link rests at 0.6, otherwise no link does |
| `Search.NormalizeIdempotent` | schnauzer/static/js/ui-controls.js:34 | a normalised term normalises to itself |
| `Search.NormalizeBlankIffWhitespace` | schnauzer/static/js/ui-controls.js:34-37 | the term is treated as empty exactly when the raw input is empty or all whitespace |
| `Search.MatchingIdsExact` | schnauzer/static/js/ui-controls.js:44-54 | an id is in the matching set exactly when some node with that id matches the term |
| `Search.MarkNodes` | schnauzer/static/js/ui-controls.js:44-59 | the node pass builds exactly the set of ids of matching nodes and gives every node, in order, full opacity if it matches and dimmed otherwise |
| `Search.MarkLinks` | schnauzer/static/js/ui-controls.js:62-68 | every link gets exactly one level: emphasised exactly when both endpoint ids are in the matching set, otherwise faded |
| `Search.OnSearchInput` | schnauzer/static/js/ui-controls.js:33-69 | the handler leaves exactly the styles `SearchStyles(raw, nodes, links)` |
| `Search.OnClear` | schnauzer/static/js/ui-controls.js:72-77 | clearing empties the box and leaves every node at full opacity and every link at its resting level |
| `Search.BlankTermResets` | schnauzer/static/js/ui-controls.js:36-41 | a blank term resets all nodes to 1 and all links to 0.6 and does no matching |
| `Search.SearchClassifies` | schnauzer/static/js/ui-controls.js:46-68 | during a search each node is full exactly when it matches and dimmed otherwise; a link is emphasised exactly when each endpoint is the id of some matching node, so a link with one matching endpoint is faded |
| `Search.LinkLevelsIgnoreNodeOrder` | schnauzer/static/js/ui-controls.js:46-68 | the link levels do not depend on the order the node pass visits the nodes in |
| `Search.LongerTermNarrows` | schnauzer/static/js/ui-controls.js:48-54 | a term that contains another matches a subset of its nodes and emphasises a subset of its links |

## Left out

- `Text.LowerChar`: lowers only the ASCII letters. JavaScript's `toLowerCase` uses the full Unicode case mapping, which is not modelled.
- `Text.Lower`: keeps the length because it lowers ASCII only. JavaScript's `toLowerCase` can change the length: `'İ'` (U+0130) lowers to two UTF-16 code units.
- Lengths are counted in Unicode scalar values. JavaScript counts UTF-16 code units, so names with characters outside the Basic Multilingual Plane are measured differently.
- Names are modelled as optional strings. A non-string name (a number bound as `name`) is not modelled.
- A node's `label`, `type` and `category` are modelled as optional strings. A truthy non-string value there would make `.toLowerCase()` throw a TypeError (ui-controls.js:48-51); the types of `NodeDatum` exclude that case.
- Node ids are strings. A node without an `id` would add `undefined` to the matching set; that case is not modelled.
- Link endpoints are modelled as the ids of the endpoint nodes. The source reads `d.source.id` and `d.target.id`, which assumes d3 has already replaced the endpoints by node objects.
- The model covers the handler's matching and styling rule, not a confirmed on-screen effect. The handler styles d3 `.node` and `.link` elements, but none of graph.js, ui.js, utils.js, layouts.js or socket.js loads d3 or creates `.node`/`.link` elements; the graph is drawn by Cytoscape (graph.js:209, 222).
- The 200 ms debounce of the search handler, the DOM lookups of the search box and clear button, and the d3 style writes are left out; the styles are returned instead of written.
- Cytoscape initialisation and style tables, `render`, layout runs, viewport fitting, PNG export, `runLayout` and `resetZoom` in graph.js are wrappers over the drawing library, the DOM and the clock, and are not modelled.
- layouts.js, ui.js, utils.js and socket.js (layout option tables, panels, colour contrast in floating point, the socket connection with its fixed 5 s retry) are not part of this model.
- schnauzer/client.py and the example scripts are not part of this model: they are network I/O and demo data.
- Incremental graph reconciliation and message path tracing are not modelled, because the source contains neither.
