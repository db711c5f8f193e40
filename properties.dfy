/**
 * What a reader of the rendered page can observe: the headings in order,
 * the body under each heading, the text of headings and cells, and where
 * the experimental badges are.
 */
module RenderProperties {
  import opened Wrappers
  import opened Schema
  import opened Dom
  import opened Render

  // ---------------------------------------------------------------------
  // Observations on a found section

  /** The section found under a heading lists exactly the rendered methods of `ms`, in order, and is absent iff `ms` is empty. */
  predicate ListsMethods(found: Option<Node>, d: Domain, ms: seq<Method>)
  {
    match found
    case None => |ms| == 0
    case Some(box) =>
      |ms| > 0 && box.tag == "div" && "box" in box.classes && |box.children| == |ms| &&
      forall k :: 0 <= k < |ms| ==> box.children[k] == MethodView(d, ms[k])
  }

  /** The same for the rendered types of `ts`. */
  predicate ListsTypes(found: Option<Node>, d: Domain, ts: seq<TypeDecl>)
  {
    match found
    case None => |ts| == 0
    case Some(box) =>
      |ts| > 0 && box.tag == "div" && "box" in box.classes && |box.children| == |ts| &&
      forall k :: 0 <= k < |ts| ==> box.children[k] == TypeView(d, ts[k])
  }

  /** The same for the rendered parameters of `ps`, in a `dl.parameter-list`. */
  predicate ListsParameters(found: Option<Node>, ps: seq<Parameter>)
  {
    match found
    case None => |ps| == 0
    case Some(list) =>
      |ps| > 0 && list.tag == "dl" && "parameter-list" in list.classes && |list.children| == |ps| &&
      forall k :: 0 <= k < |ps| ==> list.children[k] == ParameterView(ps[k])
  }

  // ---------------------------------------------------------------------
  // Finding sections

  lemma HeadingsOfSection(present: bool, tag: string, title: string, body: Node)
    requires body.tag != tag
    ensures Headings(Section(present, tag, title, body), tag) == if present then [title] else []
  {
    if present {
      HeadingsPair(Heading(tag, title), body, tag);
      assert [title] + [] == [title];
    }
  }

  /** The headings of a page made of a heading-free top and three parts are those of the parts, in order. */
  lemma HeadingsOfParts(top: seq<Node>, a: seq<Node>, b: seq<Node>, c: seq<Node>, tag: string)
    requires Headings(top, tag) == []
    ensures Headings(top + a + b + c, tag) == Headings(a, tag) + Headings(b, tag) + Headings(c, tag)
  {
    HeadingsConcat(top + a + b, c, tag);
    HeadingsConcat(top + a, b, tag);
    HeadingsConcat(top, a, tag);
    assert [] + Headings(a, tag) == Headings(a, tag);
  }

  lemma HeadingsOfTwoParts(top: seq<Node>, a: seq<Node>, b: seq<Node>, tag: string)
    requires Headings(top, tag) == []
    ensures Headings(top + a + b, tag) == Headings(a, tag) + Headings(b, tag)
  {
    HeadingsConcat(top + a, b, tag);
    HeadingsConcat(top, a, tag);
    assert [] + Headings(a, tag) == Headings(a, tag);
  }

  lemma NoHeadingConcat(a: seq<Node>, b: seq<Node>, tag: string, title: string)
    requires NoHeading(a, tag, title) && NoHeading(b, tag, title)
    ensures NoHeading(a + b, tag, title)
  {
    forall k | 0 <= k < |a + b| ensures !IsHeading((a + b)[k], tag, title) {
      if k >= |a| { assert (a + b)[k] == b[k - |a|]; }
    }
  }

  lemma NoHeadingInSection(present: bool, tag: string, title: string, body: Node, other: string)
    requires title != other && !IsHeading(body, tag, other)
    ensures NoHeading(Section(present, tag, title, body), tag, other)
  {
  }

  /** A section is found between nodes that are not its heading exactly when it is present. */
  lemma {:induction false} FindSection(pre: seq<Node>, present: bool, tag: string, title: string, body: Node, post: seq<Node>)
    requires NoHeading(pre, tag, title) && NoHeading(post, tag, title)
    ensures SectionAfter(pre + Section(present, tag, title, body) + post, tag, title) == if present then Some(body) else None
  {
    var s := Section(present, tag, title, body);
    assert pre + s + post == pre + (s + post);
    SectionAfterSkip(pre, s + post, tag, title);
    if !present {
      assert s + post == post + [];
      SectionAfterSkip(post, [], tag, title);
    } else {
      assert (s + post)[0] == Heading(tag, title) && (s + post)[1] == body;
    }
  }

  /** In a heading-free top followed by two sections with distinct titles, each section is found exactly when present. */
  lemma FindAmongTwo(top: seq<Node>, tag: string,
                     p1: bool, t1: string, b1: Node, p2: bool, t2: string, b2: Node)
    requires t1 != t2 && b1.tag != tag && b2.tag != tag
    requires NoHeading(top, tag, t1) && NoHeading(top, tag, t2)
    ensures SectionAfter(top + Section(p1, tag, t1, b1) + Section(p2, tag, t2, b2), tag, t1) == if p1 then Some(b1) else None
    ensures SectionAfter(top + Section(p1, tag, t1, b1) + Section(p2, tag, t2, b2), tag, t2) == if p2 then Some(b2) else None
  {
    var s1, s2 := Section(p1, tag, t1, b1), Section(p2, tag, t2, b2);
    NoHeadingInSection(p2, tag, t2, b2, t1);
    FindSection(top, p1, tag, t1, b1, s2);
    NoHeadingInSection(p1, tag, t1, b1, t2);
    NoHeadingConcat(top, s1, tag, t2);
    FindSection(top + s1, p2, tag, t2, b2, []);
    assert top + s1 + s2 + [] == top + s1 + s2;
  }

  /** The same for three sections with distinct titles. */
  lemma FindAmongThree(top: seq<Node>, tag: string,
                       p1: bool, t1: string, b1: Node, p2: bool, t2: string, b2: Node, p3: bool, t3: string, b3: Node)
    requires t1 != t2 && t1 != t3 && t2 != t3 && b1.tag != tag && b2.tag != tag && b3.tag != tag
    requires NoHeading(top, tag, t1) && NoHeading(top, tag, t2) && NoHeading(top, tag, t3)
    ensures var all := top + Section(p1, tag, t1, b1) + Section(p2, tag, t2, b2) + Section(p3, tag, t3, b3);
            SectionAfter(all, tag, t1) == (if p1 then Some(b1) else None) &&
            SectionAfter(all, tag, t2) == (if p2 then Some(b2) else None) &&
            SectionAfter(all, tag, t3) == (if p3 then Some(b3) else None)
  {
    var s1, s2, s3 := Section(p1, tag, t1, b1), Section(p2, tag, t2, b2), Section(p3, tag, t3, b3);
    NoHeadingInSection(p2, tag, t2, b2, t1);
    NoHeadingInSection(p3, tag, t3, b3, t1);
    NoHeadingConcat(s2, s3, tag, t1);
    FindSection(top, p1, tag, t1, b1, s2 + s3);
    assert top + s1 + s2 + s3 == top + s1 + (s2 + s3);
    NoHeadingInSection(p1, tag, t1, b1, t2);
    NoHeadingInSection(p3, tag, t3, b3, t2);
    NoHeadingConcat(top, s1, tag, t2);
    FindSection(top + s1, p2, tag, t2, b2, s3);
    NoHeadingInSection(p1, tag, t1, b1, t3);
    NoHeadingInSection(p2, tag, t2, b2, t3);
    NoHeadingConcat(top, s1, tag, t3);
    NoHeadingConcat(top + s1, s2, tag, t3);
    FindSection(top + s1 + s2, p3, tag, t3, b3, []);
    assert top + s1 + s2 + s3 + [] == top + s1 + s2 + s3;
  }

  // ---------------------------------------------------------------------
  // Badges

  /** A description carries one badge when the entry is experimental and none otherwise. */
  lemma DescriptionBadges(tag: string, classes: set<string>, description: Option<string>, experimental: bool)
    ensures CountBadges(DescriptionView(tag, classes, description, experimental)) == if experimental then 1 else 0
  {
    var n := DescriptionView(tag, classes, description, experimental);
    assert !IsBadge(n);
    if experimental {
      assert n.children[1..] == [];
      assert ChildBadges(n.children) == CountBadges(ExperimentalMark()) + 0;
    }
  }

  /** A parameter shows exactly one badge, in its description, when it is experimental, and none otherwise. */
  lemma ParameterBadge(p: Parameter)
    ensures CountBadges(ParameterView(p)) == if p.experimental then 1 else 0
    ensures CountBadges(ParameterView(p).children[1].children[1]) == if p.experimental then 1 else 0
  {
    var value := ValueCell(p);
    DescriptionBadges("span", {"parameter-description"}, p.description, p.experimental);
    ChildBadgesPair(TypeLink(p), value.children[1]);
    assert CountBadges(value) == ChildBadges(value.children);
    ChildBadgesPair(NameCell(p), value);
    assert CountBadges(NameCell(p)) == 0;
  }

  // ---------------------------------------------------------------------
  // Parameters

  /** The name cell shows the name and is marked `optional` exactly for optional parameters; the type cell always reads `<TYPE>`. */
  lemma ParameterCells(p: Parameter)
    ensures |ParameterView(p).children| == 2
    ensures TextContent(ParameterView(p).children[0]) == p.name
    ensures "optional" in ParameterView(p).children[0].classes <==> p.optional
    ensures |ParameterView(p).children[1].children| == 2
    ensures TextContent(ParameterView(p).children[1].children[0]) == "<TYPE>"
    ensures ParameterView(p).children[1].children[1].text == TextOf(p.description)
  {
  }

  /** The type cell does not depend on the parameter's declared type. */
  lemma TypeCellIgnoresType(p: Parameter, t: ParamType)
    ensures ParameterView(p.(kind := t)) == ParameterView(p)
  {
  }

  // ---------------------------------------------------------------------
  // Methods (commands and events)

  /** The heading of a method reads `<domain>.<name>`. */
  lemma MethodHeadingText(d: Domain, m: Method)
    ensures MethodView(d, m).children[0].tag == "h4"
    ensures TextContent(MethodView(d, m).children[0]) == d.domain + "." + m.name
    ensures CountBadges(MethodView(d, m).children[0]) == 0
  {
    var h := MethodHeading(d, m);
    var first, second := h.children[0], h.children[1];
    assert TextContent(first) == (d.domain + ".") + "";
    assert TextContent(second) == m.name + "";
    ChildrenTextPair(first, second);
    assert TextContent(h) == "" + ((d.domain + ".") + m.name);
    ChildBadgesPair(first, second);
  }

  /** The description paragraph shows the description and a badge exactly when the method is experimental. */
  lemma MethodBadge(d: Domain, m: Method)
    ensures MethodView(d, m).children[1].tag == "p"
    ensures MethodView(d, m).children[1].text == TextOf(m.description)
    ensures CountBadges(MethodView(d, m).children[1]) == if m.experimental then 1 else 0
  {
    DescriptionBadges("p", {}, m.description, m.experimental);
  }

  /** A method shows "Parameters" then "RETURN OBJECT", each exactly when its list is non-empty. */
  lemma MethodSectionOrder(d: Domain, m: Method)
    ensures Headings(MethodView(d, m).children, "h5") ==
              (if |m.parameters| > 0 then ["Parameters"] else []) +
              (if |m.returnValues| > 0 then ["RETURN OBJECT"] else [])
  {
    var top := [MethodHeading(d, m), DescriptionView("p", {}, m.description, m.experimental)];
    var ps := Section(|m.parameters| > 0, "h5", "Parameters", ParameterList(m.parameters));
    var rs := Section(|m.returnValues| > 0, "h5", "RETURN OBJECT", ParameterList(m.returnValues));
    assert MethodView(d, m).children == top + ps + rs;
    HeadingsPair(top[0], top[1], "h5");
    assert Headings(top, "h5") == [] + [];
    HeadingsOfTwoParts(top, ps, rs, "h5");
    HeadingsOfSection(|m.parameters| > 0, "h5", "Parameters", ParameterList(m.parameters));
    HeadingsOfSection(|m.returnValues| > 0, "h5", "RETURN OBJECT", ParameterList(m.returnValues));
  }

  /** Under "Parameters" and "RETURN OBJECT" a method lists one rendered parameter per element, in order. */
  lemma MethodSections(d: Domain, m: Method)
    ensures ListsParameters(SectionAfter(MethodView(d, m).children, "h5", "Parameters"), m.parameters)
    ensures ListsParameters(SectionAfter(MethodView(d, m).children, "h5", "RETURN OBJECT"), m.returnValues)
  {
    var top := [MethodHeading(d, m), DescriptionView("p", {}, m.description, m.experimental)];
    var ps := Section(|m.parameters| > 0, "h5", "Parameters", ParameterList(m.parameters));
    var rs := Section(|m.returnValues| > 0, "h5", "RETURN OBJECT", ParameterList(m.returnValues));
    assert MethodView(d, m).children == top + ps + rs;
    assert "Parameters" != "RETURN OBJECT";
    FindAmongTwo(top, "h5", |m.parameters| > 0, "Parameters", ParameterList(m.parameters),
                 |m.returnValues| > 0, "RETURN OBJECT", ParameterList(m.returnValues));
  }

  // ---------------------------------------------------------------------
  // Types

  /** The heading of a type is empty: the id never reaches the text content. */
  lemma TypeHeadingEmpty(d: Domain, t: TypeDecl)
    ensures TypeView(d, t).children[0].tag == "h4"
    ensures TextContent(TypeView(d, t).children[0]) == ""
  {
  }

  /** The description paragraph shows the description and a badge exactly when the type is experimental. */
  lemma TypeBadge(d: Domain, t: TypeDecl)
    ensures TypeView(d, t).children[1].tag == "p"
    ensures TypeView(d, t).children[1].text == TextOf(t.description)
    ensures CountBadges(TypeView(d, t).children[1]) == if t.experimental then 1 else 0
  {
    DescriptionBadges("p", {}, t.description, t.experimental);
  }

  /** A type shows only a "Properties" section, exactly when it has properties, listing one rendered parameter per property in order. */
  lemma TypeSections(d: Domain, t: TypeDecl)
    ensures Headings(TypeView(d, t).children, "h5") == if |t.properties| > 0 then ["Properties"] else []
    ensures ListsParameters(SectionAfter(TypeView(d, t).children, "h5", "Properties"), t.properties)
  {
    var top := [Node("h4", {"monospace"}, "", "", []), DescriptionView("p", {}, t.description, t.experimental)];
    assert TypeView(d, t).children == top + Section(|t.properties| > 0, "h5", "Properties", ParameterList(t.properties));
    HeadingsConcat(top, Section(|t.properties| > 0, "h5", "Properties", ParameterList(t.properties)), "h5");
    HeadingsPair(top[0], top[1], "h5");
    HeadingsOfSection(|t.properties| > 0, "h5", "Properties", ParameterList(t.properties));
    FindSection(top, |t.properties| > 0, "h5", "Properties", ParameterList(t.properties), []);
    assert top + Section(|t.properties| > 0, "h5", "Properties", ParameterList(t.properties)) + [] == TypeView(d, t).children;
  }

  /** A type's primitive base type and enum values are never rendered. */
  lemma TypeIgnoresBaseAndEnum(d: Domain, t: TypeDecl, baseType: Option<string>, enumValues: seq<string>)
    ensures TypeView(d, t.(baseType := baseType, enumValues := enumValues)) == TypeView(d, t)
  {
  }

  // ---------------------------------------------------------------------
  // Domains

  /** The page opens with a box holding the domain name as an `h2` and the description; no badge appears there. */
  lemma DomainHeader(d: Domain)
    ensures DomainView(d).children[0].tag == "div" && "box" in DomainView(d).children[0].classes
    ensures |DomainView(d).children[0].children| == 2
    ensures DomainView(d).children[0].children[0].tag == "h2"
    ensures TextContent(DomainView(d).children[0].children[0]) == d.domain
    ensures DomainView(d).children[0].children[1].tag == "p"
    ensures TextContent(DomainView(d).children[0].children[1]) == TextOf(d.description)
    ensures CountBadges(DomainView(d).children[0]) == 0
  {
    var h := HeaderBox(d);
    assert DomainView(d).children[0] == h;
    assert TextContent(h.children[0]) == d.domain + "";
    assert TextContent(h.children[1]) == TextOf(d.description) + "";
    ChildBadgesPair(h.children[0], h.children[1]);
  }

  /** Sections appear in the order Methods, Events, Types, each exactly when its list is non-empty. */
  lemma DomainSectionOrder(d: Domain)
    ensures Headings(DomainView(d).children, "h3") ==
              (if |d.commands| > 0 then ["Methods"] else []) +
              (if |d.events| > 0 then ["Events"] else []) +
              (if |d.types| > 0 then ["Types"] else [])
  {
    var top := [HeaderBox(d)];
    var ms := Section(|d.commands| > 0, "h3", "Methods", MethodBox(d, d.commands));
    var es := Section(|d.events| > 0, "h3", "Events", MethodBox(d, d.events));
    var ts := Section(|d.types| > 0, "h3", "Types", TypeBox(d, d.types));
    assert DomainView(d).children == top + ms + es + ts;
    assert top[1..] == [];
    assert Headings(top, "h3") == [] + [];
    HeadingsOfSection(|d.commands| > 0, "h3", "Methods", MethodBox(d, d.commands));
    HeadingsOfSection(|d.events| > 0, "h3", "Events", MethodBox(d, d.events));
    HeadingsOfSection(|d.types| > 0, "h3", "Types", TypeBox(d, d.types));
    HeadingsOfParts(top, ms, es, ts, "h3");
  }

  /** Under each heading, the box holds one rendered entry per declared entry, in declaration order. */
  lemma DomainSections(d: Domain)
    ensures ListsMethods(SectionAfter(DomainView(d).children, "h3", "Methods"), d, d.commands)
    ensures ListsMethods(SectionAfter(DomainView(d).children, "h3", "Events"), d, d.events)
    ensures ListsTypes(SectionAfter(DomainView(d).children, "h3", "Types"), d, d.types)
  {
    var top := [HeaderBox(d)];
    var mb, eb, tb := MethodBox(d, d.commands), MethodBox(d, d.events), TypeBox(d, d.types);
    var ms := Section(|d.commands| > 0, "h3", "Methods", mb);
    var es := Section(|d.events| > 0, "h3", "Events", eb);
    var ts := Section(|d.types| > 0, "h3", "Types", tb);
    assert DomainView(d).children == top + ms + es + ts;
    FindAmongThree(top, "h3", |d.commands| > 0, "Methods", mb, |d.events| > 0, "Events", eb, |d.types| > 0, "Types", tb);
  }

  /** Events go through the method renderer, so an event with return values shows a "RETURN OBJECT" section. */
  lemma EventReturnsShown(d: Domain, i: nat)
    requires i < |d.events| && |d.events[i].returnValues| > 0
    ensures SectionAfter(DomainView(d).children, "h3", "Events").Some?
    ensures var box := SectionAfter(DomainView(d).children, "h3", "Events").value;
            i < |box.children| && "RETURN OBJECT" in Headings(box.children[i].children, "h5")
  {
    DomainSections(d);
    MethodSectionOrder(d, d.events[i]);
  }

  // ---------------------------------------------------------------------
  // A worked page

  /**
   * A `Network` domain with a command `enable` and an event
   * `requestWillBeSent(requestId: string)`: the page shows "Methods" then
   * "Events", the Methods box holds just the rendered `enable` and the
   * Events box just the rendered event.
   */
  lemma NetworkPage(requestId: Parameter, event: Method, network: Domain)
    requires requestId == Parameter("requestId", None, false, false, Primitive("string"))
    requires event == Method("requestWillBeSent", None, false, [requestId], [])
    requires network == Domain("Network", None, false, [Method("enable", None, false, [], [])], [event], [])
    ensures Headings(DomainView(network).children, "h3") == ["Methods", "Events"]
    ensures SectionAfter(DomainView(network).children, "h3", "Methods").Some?
    ensures SectionAfter(DomainView(network).children, "h3", "Methods").value.children ==
            [MethodView(network, Method("enable", None, false, [], []))]
    ensures SectionAfter(DomainView(network).children, "h3", "Events").Some?
    ensures SectionAfter(DomainView(network).children, "h3", "Events").value.children == [MethodView(network, event)]
  {
    DomainSectionOrder(network);
    assert ["Methods"] + ["Events"] + [] == ["Methods", "Events"];
    DomainSections(network);
  }

  /**
   * The rendered `requestWillBeSent` event of that page: its heading reads
   * `Network.requestWillBeSent` and its single parameter row reads
   * `requestId` with the type cell `<TYPE>`, not `string`.
   */
  lemma NetworkEvent(requestId: Parameter, event: Method, network: Domain)
    requires requestId == Parameter("requestId", None, false, false, Primitive("string"))
    requires event == Method("requestWillBeSent", None, false, [requestId], [])
    requires network.domain == "Network"
    ensures TextContent(MethodView(network, event).children[0]) == "Network.requestWillBeSent"
    ensures SectionAfter(MethodView(network, event).children, "h5", "Parameters").Some?
    ensures var rows := SectionAfter(MethodView(network, event).children, "h5", "Parameters").value.children;
            |rows| == 1 && |rows[0].children| == 2 && |rows[0].children[1].children| == 2 &&
            TextContent(rows[0].children[0]) == "requestId" &&
            TextContent(rows[0].children[1].children[0]) == "<TYPE>"
  {
    MethodHeadingText(network, event);
    assert "Network" + "." + "requestWillBeSent" == "Network.requestWillBeSent";
    MethodSections(network, event);
    ParameterCells(requestId);
  }
}
