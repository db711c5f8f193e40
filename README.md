# vanilla-protocol-viewer: protocol merge and page rendering, modelled in Dafny

The viewer loads the protocol documents, merges their domains into one table
keyed by domain name, and renders one domain as a page. This project models
both steps from `main.js`:

- **Domain merge** (`merge.dfy`, module `Merge`). The `domains` lists of the
  protocol documents are pushed onto one list, in document order. Each domain
  is then set into a map under its `domain` name, so the last domain with a
  given name wins. `MergeDomains` is the loop itself. `Concat` and
  `IndexByName` are the reference definitions it is proved against, and the
  lemmas give their meaning: concatenation in order, the keys are exactly the
  names present, and each key holds the last domain of that name.
- **Page rendering** (`render.dfy`, module `Render`). The DOM is replaced by
  a value tree `Dom.Node(tag, classes, text, title, children)` (`dom.dfy`).
  `text` is the node's own leading text, which is what assigning
  `textContent` gives it. `title` is the tooltip attribute. The helpers
  `E.el`, `E.text` and `appendChild` become `El`, `TextSpan` and `Append`.
  Each of `renderDomain`, `renderMethod`, `renderType` and `renderParameter`
  is a method that creates a node and appends its children one by one, with
  `for` loops over commands, events, types and parameters. Each method is
  proved equal to a declarative view function (`DomainView`, `MethodView`,
  `TypeView`, `ParameterView`). `renderTypeLink` and `experimentalMark` are
  pure functions.
- **What a reader sees** (`properties.dfy`, module `RenderProperties`).
  These are lemmas stated through observations of the tree:
  - `TextContent`: the DOM's text content.
  - `Headings`: the texts of the headings at one level, in order.
  - `SectionAfter`: the node that follows a given heading.
  - `CountBadges`: how many experimental badges a subtree holds.

  The lemmas cover which sections appear, in what order and with what
  content, the heading texts, the badges and the `optional` class.

The schema (`schema.dfy`) has one datatype each for `Domain`, `Method`
(used for commands and events, which share one shape and one renderer),
`TypeDecl` and `Parameter`. An optional JSON list is a sequence: the
renderer's test `list && list.length` treats an absent list like an empty
one. A missing boolean flag is `false`. A missing description is `None` and
renders as empty text.

In these places the code does less than a protocol viewer might be expected
to do, and the model follows the code:

- `renderTypeLink` always gives the placeholder `<TYPE>`. It resolves no
  reference, makes no link and never prints a primitive type name or an
  array wrapper.
- `renderType` writes the type id into an expando property `text` of the
  `h4`, not into its text content. The heading of a type therefore renders
  empty.
- Types never render their primitive type or enum values.
- Events are rendered by `renderMethod`, so an event with return values
  shows a "RETURN OBJECT" section.
- The domain header never shows an experimental badge.
- Entries are not separated by boundary markers.
- The code has no navigation router, location token, anchors, permalinks,
  reference resolver or search index, so none of these is modelled.

## Model

| member | source | states |
|---|---|---|
| `Merge.MergeDomains` | main.js:8-13 | The two loops produce the in-order concatenation of all documents' domains and a map whose keys are exactly the names present, each holding the last domain of that name |
| `Merge.ConcatAppend` | main.js:8-10 | Concatenating the domain lists distributes over splitting the document list: the merged list keeps document order |
| `Merge.ConcatPosition` | main.js:8-10 | The j-th domain of document k sits in the merged list right after all domains of documents 0..k-1 |
| `Merge.IndexKeys` | main.js:11-13 | After setting every domain under its name, the map's keys are exactly the domain names in the list |
| `Merge.IndexLastWins` | main.js:11-13 | A domain with no later domain of the same name is the one its name maps to (last write wins) |
| `Render.ExperimentalMark` | main.js:153-157 | The mark is a badge: a span reading "experimental" with the tooltip "This may be changed, moved or removed", counting as exactly one badge |
| `Render.TypeLink` | main.js:149-151 | Whatever the parameter, the type cell reads `<TYPE>` and holds no badge |
| `Render.ParameterNodes` | main.js:88-89 | One rendered parameter per element, in declaration order, none dropped or reordered |
| `Render.MethodNodes` | main.js:37-40 | One rendered method per command (or event), in declaration order |
| `Render.TypeNodes` | main.js:59-62 | One rendered type per type declaration, in declaration order |
| `Render.RenderParameter` | main.js:129-147 | Building the row step by step yields the parameter view: name cell, then value cell with the type link and the description |
| `Render.RenderParameterList` | main.js:114-116 | The loop fills the `dl.parameter-list` with exactly the rendered parameters in order |
| `Render.RenderDescription` | main.js:103-109 | The paragraph holds the description text, followed by a badge when the entry is experimental |
| `Render.AppendParameterSection` | main.js:110-117 | An `h5` heading with the title and the filled list are appended iff the list is non-empty; otherwise nothing changes |
| `Render.RenderMethod` | main.js:94-127 | The built node is the method view: heading, description, then the optional Parameters and RETURN OBJECT sections |
| `Render.RenderType` | main.js:68-92 | The built node is the type view: an empty `h4`, the description, then the optional Properties section |
| `Render.RenderMethods` | main.js:36-40 | The loop fills the `div.box` with exactly the rendered methods in order |
| `Render.RenderTypes` | main.js:58-62 | The loop fills the `div.box` with exactly the rendered types in order |
| `Render.RenderHeader` | main.js:21-30 | The header box holds an `h2` with the domain name and a `p` with its description |
| `Render.AppendMethodSection` | main.js:32-52 | An `h3` heading and the filled box are appended iff the command (or event) list is non-empty |
| `Render.AppendTypeSection` | main.js:54-63 | An `h3` "Types" heading and the filled box are appended iff the type list is non-empty |
| `Render.RenderDomain` | main.js:18-66 | The built page is the domain view: header box, then the Methods, Events and Types sections as present |
| `RenderProperties.DescriptionBadges` | main.js:105-108 | A description carries one badge if the entry is experimental and none otherwise |
| `RenderProperties.ParameterBadge` | main.js:142-144 | A parameter row holds exactly one badge, in its description, iff the parameter is experimental |
| `RenderProperties.ParameterCells` | main.js:133-142 | The name cell reads the name and has class `optional` iff the parameter is optional; the type cell reads `<TYPE>`; the description cell shows the description |
| `RenderProperties.TypeCellIgnoresType` | main.js:149-151 | Changing a parameter's declared type does not change its row |
| `RenderProperties.MethodHeadingText` | main.js:99-101 | A method's `h4` heading reads `<domain>.<name>` and holds no badge |
| `RenderProperties.MethodBadge` | main.js:105-108 | A method's description paragraph shows its description and a badge iff the method is experimental |
| `RenderProperties.MethodSectionOrder` | main.js:110-125 | A method's `h5` headings are "Parameters" then "RETURN OBJECT", each present iff its list is non-empty |
| `RenderProperties.MethodSections` | main.js:110-125 | Under "Parameters" and "RETURN OBJECT" the list holds one rendered parameter per element, in order, and is absent iff the list is empty |
| `RenderProperties.TypeHeadingEmpty` | main.js:72-75 | A type's `h4` heading has empty text content: the id never reaches the page |
| `RenderProperties.TypeBadge` | main.js:76-82 | A type's description paragraph shows its description and a badge iff the type is experimental |
| `RenderProperties.TypeSections` | main.js:83-90 | A type shows only a "Properties" heading, iff it has properties, and under it one rendered parameter per property in order |
| `RenderProperties.TypeIgnoresBaseAndEnum` | main.js:68-92 | A type's primitive base type and enum values do not affect its rendering |
| `RenderProperties.DomainHeader` | main.js:21-30 | The page opens with a box whose `h2` reads the domain name and whose `p` reads its description, with no badge even for an experimental domain |
| `RenderProperties.DomainSectionOrder` | main.js:32-63 | The page's `h3` headings are Methods, Events, Types in this order, each present iff its list is non-empty |
| `RenderProperties.DomainSections` | main.js:32-63 | Under each `h3` heading the box holds one rendered entry per declared entry, in declaration order, and is absent iff the list is empty |
| `RenderProperties.EventReturnsShown` | main.js:48-51 | An event with return values shows a "RETURN OBJECT" section on the page, because events go through `renderMethod` |
| `RenderProperties.NetworkPage` | main.js:18-66 | Worked page: a `Network` domain with command `enable` and event `requestWillBeSent(requestId: string)` shows the Methods heading then the Events heading, the Methods box holds exactly the rendered `enable`, and the Events box holds exactly the rendered event |
| `RenderProperties.NetworkEvent` | main.js:94-151 | The rendered `requestWillBeSent` event of that page: its heading reads `Network.requestWillBeSent` and its one parameter row reads `requestId` with the type cell `<TYPE>` rather than `string` |

## Left out

- Fetching the two JSON documents and `Promise.all` (main.js:4-7) are network I/O. The documents are the parameter of `MergeDomains`.
- The `DOMContentLoaded` hookup and `document.body.appendChild` (main.js:1, 15) are browser plumbing.
- A protocol document without a `domains` list makes the merge throw at `protocol.domains` (main.js:10), and then nothing renders. The model takes every document to have one: a `Protocol` is a sequence of domains.
- The lookup of the hard-coded `'Network'` domain (main.js:14) is left out. Rendering is modelled for an arbitrary domain.
- The DOM API (`document.createElement`, `className`, `classList`, the `Node.prototype` helpers, main.js:161-243) is replaced by value nodes. A class string such as `'parameter-name monospace'` becomes a set of class names. Class order and duplicate classes are not modelled.
- In-place mutation of DOM nodes is modelled as building values. The source attaches a node to its parent first and fills it afterwards; the model fills it first and attaches it afterwards. The final tree is the same, since every node is created fresh and attached exactly once, but node identity and aliasing are not modelled.
- The JavaScript `Map` remembers insertion order. The Dafny `map` does not, and the code never iterates over the map.
- The expando property `text` set on the type heading (main.js:74) is not part of the tree. Only its effect, an empty heading, is modelled.
- JavaScript truthiness on non-boolean flags (for example `experimental: "yes"`) is not modelled. The flags are booleans, with an absent flag taken as `false`.
- A description that is present but not a string is not modelled. Descriptions are optional strings.
