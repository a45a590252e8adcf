# swagger2adoc in Dafny

A model of `swagger2adoc.rb`. This script reads an OpenAPI 3 document as JSON and writes four AsciiDoc files:

- `overview.adoc`: the title, version and description from `info`.
- `paths.adoc`: one section per operation, with method, path, tags and description, then the request media types, the response codes and the first example response.
- `definitions.adoc`: one section per `components.schemas` entry, with a property/type table.
- `security.adoc`: one section per `components.securitySchemes` entry.

The script builds each file as an array of lines that it appends to, then joins the lines with a newline. The model keeps that form:

- Each renderer is a method that appends to a `seq<string>`. The script's `each` loops are `while` loops whose invariants tie the lines written so far to a specification function.
- The specification functions (`OverviewLines`, `PathsLines`, `DefinitionsLines`, `SecurityLines`) give the lines as a value. Lemmas about them state the layout the script produces.

Modules:

- `Json` (json.dfy): the parsed document as a `Value` datatype. Objects are ordered member lists, as Ruby Hashes keep insertion order. The module also holds Ruby's reading of values: `nil`/`false` truthiness, `x || default`, and `to_s` of scalars.
- `Text` (text.dfy): ASCII `upcase`, decimal integers, `Array#join` and a newline split used to show that the joined file determines its lines.
- `Overview`, `Paths`, `Definitions`, `Security`: the four renderers.
- `Convert`: the four file bodies together.
- `Scenarios`: the output for a small whole document.

Each render method requires a `Shaped` predicate, a Hash-shaped reading of the document. It excludes every input on which the script raises: for example, `each` over a value that is neither a Hash nor an Array, and `&.join` on `false`. It also excludes some inputs the script tolerates; "Left out" gives examples. For instance, the script reads a String in place of a Hash through `String#[]`. The same predicates require scalars wherever a value is interpolated into text, which rules out Ruby's `inspect` output. Response content needs that shape only for the responses the example scan reaches (`Paths.ResponsesShaped`).

## Model

| member | source | states |
|---|---|---|
| Json.LookupFirst | swagger2adoc.rb:14-15 | `hash[key]` is nil when no member has the key, and otherwise the value of the first member with that key |
| Json.OrDefault | swagger2adoc.rb:15 | the Ruby default idiom (value, or else a default) gives the default for nil/false and the string itself for a string |
| Text.UpcaseAt | swagger2adoc.rb:27 | `upcase` keeps the length, leaves no lower-case ASCII letter, maps a-z to A-Z and leaves every other character unchanged |
| Text.UpcaseIdempotent | swagger2adoc.rb:27 | a property of the modelled `upcase` (the script upcases each method name once): applying it to its own result changes nothing |
| Text.NatToStringValue | swagger2adoc.rb:17 | `to_s` of a non-negative integer is its decimal numeral: the digits denote the number, with no leading zero except for 0 |
| Text.IntToStringValue | swagger2adoc.rb:17 | `to_s` of an integer is its decimal numeral, preceded by a minus sign when it is negative |
| Text.SplitJoin | swagger2adoc.rb:20 | joining newline-free lines with "\n" and splitting at '\n' gives back the lines |
| Overview.OverviewLines | swagger2adoc.rb:13-19 | the overview is "= title" (default "API Documentation"), a blank line, "Version: v" only when the version is truthy, a blank line and the description (default "No description provided."): 5 lines with a version, 4 without |
| Overview.RenderOverview | swagger2adoc.rb:13-19 | the appended lines equal OverviewLines |
| Overview.MissingInfo | swagger2adoc.rb:14-19 | without `info` the overview is exactly the four default lines |
| Paths.MimeBulletsAt | swagger2adoc.rb:47 | one "* `type`" bullet per media type, in document order |
| Paths.ResponseBulletsAt | swagger2adoc.rb:55-57 | one "* `status`: description" bullet per response, in document order |
| Paths.ConsumesLayout | swagger2adoc.rb:41-49 | the Consumes part is present exactly when `requestBody.content` has a media type; it is then the heading, the bullets and a blank line |
| Paths.ResponsesLayout | swagger2adoc.rb:51-59 | the Responses part is present exactly when there is a response; it is then the heading, the bullets and a blank line |
| Paths.FirstExampleIsFirstMatch | swagger2adoc.rb:62-73 | the example found is the candidate of the first response that yields a truthy one, and there is none (nil) exactly when no response yields one |
| Paths.OnlyFirstContentConsulted | swagger2adoc.rb:64 | only the first media type of a response's content decides its example |
| Paths.ExamplesTakePrecedence | swagger2adoc.rb:65-70 | when `examples` is present, `example` is not looked at, and the candidate is the `value` of the first entry of `examples` |
| Paths.ContentlessResponseSkipped | swagger2adoc.rb:63-73 | a response with no content, or empty content, does not stop the scan: the result is that of the remaining responses |
| Paths.FindExample | swagger2adoc.rb:62-73 | the loop with `break if example` ends with a truthy example exactly when the first-match specification has one, and then it is that example |
| Paths.ExampleLayout | swagger2adoc.rb:75-82 | the Example Response part is present exactly when some response yields a truthy example; it then holds the pretty-printed first-match example between "----" lines |
| Paths.OperationBlockStartsWithIntro | swagger2adoc.rb:32-38 | every operation block starts with its seven intro lines |
| Paths.OperationHeading | swagger2adoc.rb:27-38 | the heading is "=== operationId", or "=== METHOD path" without an operationId; the Method, Path and description lines are as the script writes them, with blank lines around the description |
| Paths.TagsBullet | swagger2adoc.rb:30-35 | absent tags read "* Tags: none", an empty list reads "* Tags: ", and otherwise the tags are joined with ", " |
| Paths.PathsInDocumentOrder | swagger2adoc.rb:25-26 | the paths file holds one block per operation, path by path and method by method, in document order |
| Paths.PathsLines | swagger2adoc.rb:24 | the paths file starts with "== API Paths" and a blank line |
| Paths.AppendConsumes | swagger2adoc.rb:45-49 | appending the Consumes part adds exactly ConsumesSection |
| Paths.AppendResponses | swagger2adoc.rb:53-59 | appending the Responses part adds exactly ResponsesSection |
| Paths.RenderOperation | swagger2adoc.rb:27-82 | the lines appended for one operation equal OperationBlock |
| Paths.RenderPathItem | swagger2adoc.rb:26-83 | the lines appended for one path item are the blocks of its methods in order |
| Paths.AppendPaths | swagger2adoc.rb:25-84 | the outer loop appends the blocks of every path in order |
| Paths.RenderPaths | swagger2adoc.rb:23-84 | the paths lines equal PathsLines |
| Definitions.PropertyRowsAt | swagger2adoc.rb:98-101 | one table row per property, naming the property and its type, in document order |
| Definitions.MissingTypeIsObject | swagger2adoc.rb:99-100 | a property without a type reads "object" |
| Definitions.SchemaLayout | swagger2adoc.rb:91-94 | a schema block is "=== name", the description (or empty) and a blank line, followed by the property table |
| Definitions.TableLayout | swagger2adoc.rb:94-104 | the table is present exactly when `properties` is truthy; it is then the three header lines, one row per property in document order with "object" for a missing type, and the two closing lines (the table delimiter and a blank line) |
| Definitions.DefinitionsLines | swagger2adoc.rb:89 | the definitions file starts with "== Definitions" and a blank line |
| Definitions.AppendRows | swagger2adoc.rb:98-101 | the property loop appends exactly the rows |
| Definitions.RenderSchema | swagger2adoc.rb:91-104 | the lines appended for one schema equal SchemaBlock |
| Definitions.RenderDefinitions | swagger2adoc.rb:88-105 | the definitions lines equal DefinitionsLines |
| Security.SchemeBlocksAt | swagger2adoc.rb:111-118 | every scheme contributes exactly four lines at offset 4k: "=== name", "* Type: type", the description (or empty) and a blank line |
| Security.SecurityLayout | swagger2adoc.rb:109-118 | the security file is "== Security", a blank line and four lines per scheme in document order |
| Security.RenderSecurity | swagger2adoc.rb:109-118 | the security lines equal SecurityLines |
| Convert.ConvertDocument | swagger2adoc.rb:13-119 | each of the four file bodies is its specification lines joined with "\n" |
| Convert.BodyDeterminesLines | swagger2adoc.rb:20 | a written file body splits back into exactly its lines when no line holds a newline |
| Scenarios.SmallOverview | swagger2adoc.rb:13-19 | for the document with title T and version 1.0 the overview is "= T", "", "Version: 1.0", "", "No description provided." |
| Scenarios.SmallIntro | swagger2adoc.rb:27-38 | the operation getX on GET /x has heading "=== getX", "* Method: `GET`", "* Path: `/x`" and "* Tags: none" |
| Scenarios.SmallResponses | swagger2adoc.rb:51-73 | its one response gives the bullet "* `200`: ok" and no example |
| Scenarios.SmallBlock | swagger2adoc.rb:27-82 | the whole block of getX is the intro and the Responses part, with no Consumes and no Example part |
| Scenarios.SmallPathBlocks | swagger2adoc.rb:25-26 | a document with one path and one method has exactly that operation's block |
| Scenarios.SmallPaths | swagger2adoc.rb:23-84 | the complete paths lines for the small document |
| Scenarios.ScanStopsBeforeMalformed | swagger2adoc.rb:62-73 | a 200 response with an example ahead of a 500 response whose content is `false` is accepted, because the scan stops at the 200; the example is the 200's |
| Scenarios.ScanSkipsContentless | swagger2adoc.rb:62-73 | a content-less 404 ahead of a 200 with an example yields the 200's example |

## Left out

- File input and output, `ARGV`, `JSON.parse` and `FileUtils.mkdir_p` (lines 1-10, and the `File.write` calls at 20, 85, 106 and 119) are not modelled. The model starts from the parsed document and ends with the four file bodies as strings.
- `JSON.pretty_generate` (line 79) is a function parameter `pretty`. The model proves where its output goes, not what it contains.
- `String#upcase` is modelled for ASCII letters only; Ruby's Unicode case mapping is not.
- JSON numbers are integers; floating-point numbers and their `to_s` are not modelled.
- `summary` (line 28) is read but never written by the script, so the model does not read it.
- Inputs on which the script raises are excluded by the `Shaped` preconditions, so the model has no error path for them. Examples: `paths` or a path item that is neither a Hash nor an Array, `tags` that is `false` or not an Array, `content` that is `false` in a response the example scan reaches, and a schema, property or scheme that is nil or a number.
- Inputs the script renders without raising but that the `Shaped` preconditions exclude are not modelled. For example:
  - an Array in place of `paths`, a path item or a Hash the script iterates (`[].each` renders nothing);
  - a String in place of `info`, a response, a schema, a media-type entry, a security scheme, a property entry such as `"id": "integer"` (rendered "object"), or the first entry of `examples`. `String#[]` reads such a String as a substring or nil.
- The `Shaped` preconditions also exclude arrays and objects where a value is interpolated into text (Ruby `inspect`). They also exclude an Array where a value is pushed as a line of its own: the description at lines 19, 37, 92 and 116, which `join("\n")` flattens into several lines. Nested tags, which `Array#join` flattens, are excluded as well.
- A JSON object is assumed to have distinct keys, as Ruby's `JSON.parse` keeps only the last of duplicate keys.
- `$ref` references are not resolved, as in the script.
- Empty `tags`: one might expect "none" for an empty tag list, as for an absent one. The script writes "* Tags: " because `[].join(', ')` is the empty string, which Ruby treats as truthy. The model follows the script (`Paths.TagsBullet`).
