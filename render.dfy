/**
 * Projection of a domain onto a display tree, following `renderDomain`,
 * `renderMethod`, `renderType`, `renderParameter`, `renderTypeLink` and
 * `experimentalMark`.
 *
 * Each rendering step is a method that builds its node the way the viewer
 * does, creating elements and appending children one at a time, and is
 * proved equal to a declarative view function (`DomainView`, `MethodView`,
 * `TypeView`, `ParameterView`). What the views show is proved in the module
 * RenderProperties.
 */
module Render {
  import opened Wrappers
  import opened Schema
  import opened Dom

  /** The tooltip of the experimental badge. */
  const Tooltip := "This may be changed, moved or removed"

  /** What an experimental badge looks like to a reader: a span reading "experimental" with the tooltip. */
  predicate IsBadge(n: Node)
  {
    n.tag == "span" && n.text == "experimental" && n.title == Tooltip
  }

  /** The number of experimental badges in the subtree of `n`. */
  function CountBadges(n: Node): nat
    decreases n, 1
  {
    (if IsBadge(n) then 1 else 0) + ChildBadges(n.children)
  }

  function ChildBadges(cs: seq<Node>): nat
    decreases cs, 0
  {
    if cs == [] then 0 else CountBadges(cs[0]) + ChildBadges(cs[1..])
  }

  lemma ChildBadgesPair(a: Node, b: Node)
    ensures ChildBadges([a, b]) == CountBadges(a) + CountBadges(b)
  {
    assert [a, b][1..] == [b];
    assert [b][1..] == [];
    assert ChildBadges([b]) == CountBadges(b) + ChildBadges([]);
  }

  /** The text a possibly absent description renders as: assigning `undefined` to `textContent` leaves it empty. */
  function TextOf(description: Option<string>): string
  {
    description.GetOr("")
  }

  /** `experimentalMark`. */
  function ExperimentalMark(): (n: Node)
    ensures IsBadge(n) && CountBadges(n) == 1 && TextContent(n) == "experimental"
  {
    Node("span", {"experimental"}, "experimental", Tooltip, [])
  }

  /** `renderTypeLink`: a fixed placeholder, whatever the parameter's type. */
  function TypeLink(p: Parameter): (n: Node)
    ensures TextContent(n) == "<TYPE>" && CountBadges(n) == 0
  {
    Node("span", {"parameter-type"}, "<TYPE>", "", [])
  }

  // ---------------------------------------------------------------------
  // Declarative views

  /** A description element: the description text, then a badge when the entry is experimental. */
  function DescriptionView(tag: string, classes: set<string>, description: Option<string>, experimental: bool): Node
  {
    Node(tag, classes, TextOf(description), "", if experimental then [ExperimentalMark()] else [])
  }

  /** A heading with the title followed by its body, or nothing when `present` is false. */
  function Section(present: bool, tag: string, title: string, body: Node): seq<Node>
  {
    if present then [Heading(tag, title), body] else []
  }

  /** A heading element holding the title. */
  function Heading(tag: string, title: string): Node
  {
    Node(tag, {}, title, "", [])
  }

  function NameCell(p: Parameter): Node
  {
    Node("div", if p.optional then {"parameter-name", "monospace", "optional"} else {"parameter-name", "monospace"}, p.name, "", [])
  }

  function ValueCell(p: Parameter): Node
  {
    Node("div", {"parameter-value", "vbox"}, "", "",
         [TypeLink(p), DescriptionView("span", {"parameter-description"}, p.description, p.experimental)])
  }

  function ParameterView(p: Parameter): Node
  {
    Node("div", {"parameter", "hbox"}, "", "", [NameCell(p), ValueCell(p)])
  }

  /** One rendered parameter per element of `ps`, in order. */
  function ParameterNodes(ps: seq<Parameter>): (r: seq<Node>)
    ensures |r| == |ps|
    ensures forall k :: 0 <= k < |ps| ==> r[k] == ParameterView(ps[k])
  {
    if ps == [] then [] else ParameterNodes(ps[..|ps| - 1]) + [ParameterView(ps[|ps| - 1])]
  }

  function ParameterList(ps: seq<Parameter>): Node
  {
    Node("dl", {"parameter-list"}, "", "", ParameterNodes(ps))
  }

  function MethodHeading(d: Domain, m: Method): Node
  {
    Node("h4", {"monospace"}, "", "",
         [Node("span", {"method-domain"}, d.domain + ".", "", []), Node("span", {"method-name"}, m.name, "", [])])
  }

  function MethodView(d: Domain, m: Method): Node
  {
    Node("div", {"method"}, "", "",
         [MethodHeading(d, m), DescriptionView("p", {}, m.description, m.experimental)]
         + Section(|m.parameters| > 0, "h5", "Parameters", ParameterList(m.parameters))
         + Section(|m.returnValues| > 0, "h5", "RETURN OBJECT", ParameterList(m.returnValues)))
  }

  /** The heading of a type stays empty: the viewer stores the id in an expando `text` property, not in the text content. */
  function TypeView(d: Domain, t: TypeDecl): Node
  {
    Node("div", {"type"}, "", "",
         [Node("h4", {"monospace"}, "", "", []), DescriptionView("p", {}, t.description, t.experimental)]
         + Section(|t.properties| > 0, "h5", "Properties", ParameterList(t.properties)))
  }

  /** One rendered method per element of `ms`, in order. */
  function MethodNodes(d: Domain, ms: seq<Method>): (r: seq<Node>)
    ensures |r| == |ms|
    ensures forall k :: 0 <= k < |ms| ==> r[k] == MethodView(d, ms[k])
  {
    if ms == [] then [] else MethodNodes(d, ms[..|ms| - 1]) + [MethodView(d, ms[|ms| - 1])]
  }

  /** One rendered type per element of `ts`, in order. */
  function TypeNodes(d: Domain, ts: seq<TypeDecl>): (r: seq<Node>)
    ensures |r| == |ts|
    ensures forall k :: 0 <= k < |ts| ==> r[k] == TypeView(d, ts[k])
  {
    if ts == [] then [] else TypeNodes(d, ts[..|ts| - 1]) + [TypeView(d, ts[|ts| - 1])]
  }

  /** The `div.box` holding a domain's commands or its events. */
  function MethodBox(d: Domain, ms: seq<Method>): Node
  {
    Node("div", {"box"}, "", "", MethodNodes(d, ms))
  }

  /** The `div.box` holding a domain's types. */
  function TypeBox(d: Domain, ts: seq<TypeDecl>): Node
  {
    Node("div", {"box"}, "", "", TypeNodes(d, ts))
  }

  function HeaderBox(d: Domain): Node
  {
    Node("div", {"box"}, "", "", [Heading("h2", d.domain), Node("p", {}, TextOf(d.description), "", [])])
  }

  function DomainView(d: Domain): Node
  {
    Node("div", {"domain"}, "", "",
         [HeaderBox(d)]
         + Section(|d.commands| > 0, "h3", "Methods", MethodBox(d, d.commands))
         + Section(|d.events| > 0, "h3", "Events", MethodBox(d, d.events))
         + Section(|d.types| > 0, "h3", "Types", TypeBox(d, d.types)))
  }

  // ---------------------------------------------------------------------
  // The rendering steps

  /** `renderParameter`. */
  method RenderParameter(p: Parameter) returns (r: Node)
    ensures r == ParameterView(p)
  {
    r := El("div", {"parameter", "hbox"});
    var name := El("div", {"parameter-name", "monospace"});
    if p.optional {
      name := name.(classes := name.classes + {"optional"});
    }
    name := name.(text := p.name);
    assert name == NameCell(p);
    r := Append(r, name);
    assert r.children == [name];

    var container := El("div", {"parameter-value", "vbox"});
    container := Append(container, TypeLink(p));
    var description := TextSpan(TextOf(p.description), {"parameter-description"});
    if p.experimental {
      description := Append(description, ExperimentalMark());
    }
    assert description == DescriptionView("span", {"parameter-description"}, p.description, p.experimental);
    container := Append(container, description);
    assert container == ValueCell(p);
    r := Append(r, container);
    assert r.children == [name, container];
  }

  /** A `dl.parameter-list` filled by the loop `for (let parameter of ps) container.appendChild(renderParameter(parameter))`. */
  method RenderParameterList(ps: seq<Parameter>) returns (list: Node)
    ensures list == ParameterList(ps)
  {
    list := El("dl", {"parameter-list"});
    for i := 0 to |ps|
      invariant list == Node("dl", {"parameter-list"}, "", "", ParameterNodes(ps[..i]))
    {
      assert ps[..i + 1][..i] == ps[..i];
      var item := RenderParameter(ps[i]);
      list := Append(list, item);
    }
    assert ps[..|ps|] == ps;
  }

  /** The description paragraph of a method or a type. */
  method RenderDescription(description: Option<string>, experimental: bool) returns (p: Node)
    ensures p == DescriptionView("p", {}, description, experimental)
  {
    p := El("p", {}).(text := TextOf(description));
    if experimental {
      p := Append(p, ExperimentalMark());
    }
  }

  /** One `if (list && list.length)` block of `renderMethod` or `renderType`: an `h5` heading, then the parameter list. */
  method AppendParameterSection(main: Node, ps: seq<Parameter>, title: string) returns (r: Node)
    ensures r == main.(children := main.children + Section(|ps| > 0, "h5", title, ParameterList(ps)))
  {
    r := main;
    if |ps| > 0 {
      r := Append(r, Heading("h5", title));
      var list := RenderParameterList(ps);
      r := Append(r, list);
    }
  }

  /** `renderMethod`, used for commands and for events alike. */
  method RenderMethod(d: Domain, m: Method) returns (r: Node)
    ensures r == MethodView(d, m)
  {
    r := El("div", {"method"});
    var heading := El("h4", {"monospace"});
    heading := Append(heading, TextSpan(d.domain + ".", {"method-domain"}));
    heading := Append(heading, TextSpan(m.name, {"method-name"}));
    assert heading == MethodHeading(d, m);
    r := Append(r, heading);

    var p := RenderDescription(m.description, m.experimental);
    r := Append(r, p);
    assert r.children == [heading, p];

    r := AppendParameterSection(r, m.parameters, "Parameters");
    r := AppendParameterSection(r, m.returnValues, "RETURN OBJECT");
  }

  /** `renderType`; the heading gets no text (see TypeView). */
  method RenderType(d: Domain, t: TypeDecl) returns (r: Node)
    ensures r == TypeView(d, t)
  {
    r := El("div", {"type"});
    r := Append(r, El("h4", {"monospace"}));

    var p := RenderDescription(t.description, t.experimental);
    r := Append(r, p);
    assert r.children == [Node("h4", {"monospace"}, "", "", []), p];

    r := AppendParameterSection(r, t.properties, "Properties");
  }


  /** A `div.box` filled with one rendered method per element of `ms`, in order. */
  method RenderMethods(d: Domain, ms: seq<Method>) returns (box: Node)
    ensures box == MethodBox(d, ms)
  {
    box := El("div", {"box"});
    for i := 0 to |ms|
      invariant box == Node("div", {"box"}, "", "", MethodNodes(d, ms[..i]))
    {
      assert ms[..i + 1][..i] == ms[..i];
      var item := RenderMethod(d, ms[i]);
      box := Append(box, item);
    }
    assert ms[..|ms|] == ms;
  }

  /** A `div.box` filled with one rendered type per element of `ts`, in order. */
  method RenderTypes(d: Domain, ts: seq<TypeDecl>) returns (box: Node)
    ensures box == TypeBox(d, ts)
  {
    box := El("div", {"box"});
    for i := 0 to |ts|
      invariant box == Node("div", {"box"}, "", "", TypeNodes(d, ts[..i]))
    {
      assert ts[..i + 1][..i] == ts[..i];
      var item := RenderType(d, ts[i]);
      box := Append(box, item);
    }
    assert ts[..|ts|] == ts;
  }

  /** The box with the domain's name and description that opens `renderDomain`. */
  method RenderHeader(d: Domain) returns (container: Node)
    ensures container == HeaderBox(d)
  {
    container := El("div", {"box"});
    container := Append(container, Heading("h2", d.domain));
    container := Append(container, El("p", {}).(text := TextOf(d.description)));
    assert container.children == [Heading("h2", d.domain), Node("p", {}, TextOf(d.description), "", [])];
  }

  /** One `if (list && list.length)` block of `renderDomain` for commands or events: a heading, then the filled box. */
  method AppendMethodSection(main: Node, d: Domain, ms: seq<Method>, title: string) returns (r: Node)
    ensures r == main.(children := main.children + Section(|ms| > 0, "h3", title, MethodBox(d, ms)))
  {
    r := main;
    if |ms| > 0 {
      r := Append(r, Heading("h3", title));
      var box := RenderMethods(d, ms);
      r := Append(r, box);
    }
  }

  /** The block of `renderDomain` for types. */
  method AppendTypeSection(main: Node, d: Domain, ts: seq<TypeDecl>) returns (r: Node)
    ensures r == main.(children := main.children + Section(|ts| > 0, "h3", "Types", TypeBox(d, ts)))
  {
    r := main;
    if |ts| > 0 {
      r := Append(r, Heading("h3", "Types"));
      var box := RenderTypes(d, ts);
      r := Append(r, box);
    }
  }

  /** `renderDomain`. */
  method RenderDomain(d: Domain) returns (r: Node)
    ensures r == DomainView(d)
  {
    r := El("div", {"domain"});
    var container := RenderHeader(d);
    r := Append(r, container);
    assert r.children == [HeaderBox(d)];
    r := AppendMethodSection(r, d, d.commands, "Methods");
    r := AppendMethodSection(r, d, d.events, "Events");
    r := AppendTypeSection(r, d, d.types);
  }


}
