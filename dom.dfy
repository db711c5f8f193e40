/**
 * An abstract display tree standing in for the DOM elements the viewer
 * creates. A node has a tag, a set of CSS classes, its own leading text
 * (what assigning `textContent` gives it), a `title` attribute (the
 * tooltip) and its children in order.
 */
module Dom {
  import opened Wrappers

  datatype Node = Node(tag: string, classes: set<string>, text: string, title: string, children: seq<Node>)

  /** A fresh element without text or children (`E.el`). */
  function El(tag: string, classes: set<string>): Node
  {
    Node(tag, classes, "", "", [])
  }

  /** A fresh `span` holding the given text (`E.text`). */
  function TextSpan(text: string, classes: set<string>): Node
  {
    Node("span", classes, text, "", [])
  }

  /** `parent.appendChild(child)` on values: the child becomes the last one. */
  function Append(parent: Node, child: Node): Node
  {
    parent.(children := parent.children + [child])
  }

  /** The concatenated text of a node and all its descendants, in document order (the DOM's `textContent`). */
  function TextContent(n: Node): string
    decreases n, 1
  {
    n.text + ChildrenText(n.children)
  }

  function ChildrenText(cs: seq<Node>): string
    decreases cs, 0
  {
    if cs == [] then "" else TextContent(cs[0]) + ChildrenText(cs[1..])
  }

  lemma ChildrenTextPair(a: Node, b: Node)
    ensures ChildrenText([a, b]) == TextContent(a) + TextContent(b)
  {
    assert [a, b][1..] == [b];
    assert [b][1..] == [];
    assert ChildrenText([b]) == TextContent(b) + "";
    assert TextContent(b) + "" == TextContent(b);
  }

  /** Whether `n` is a heading element of the given tag with the given text. */
  predicate IsHeading(n: Node, tag: string, title: string)
  {
    n.tag == tag && n.text == title
  }

  /** No node of `cs` is a heading of this tag and text. */
  predicate NoHeading(cs: seq<Node>, tag: string, title: string)
  {
    forall k :: 0 <= k < |cs| ==> !IsHeading(cs[k], tag, title)
  }

  /** The texts of the nodes of `cs` that carry the tag, in order: the headings a reader sees at that level. */
  function Headings(cs: seq<Node>, tag: string): seq<string>
  {
    if cs == [] then []
    else (if cs[0].tag == tag then [cs[0].text] else []) + Headings(cs[1..], tag)
  }

  lemma {:induction false} HeadingsConcat(a: seq<Node>, b: seq<Node>, tag: string)
    ensures Headings(a + b, tag) == Headings(a, tag) + Headings(b, tag)
  {
    if a == [] {
      assert a + b == b;
    } else {
      var first := if a[0].tag == tag then [a[0].text] else [];
      assert (a + b)[0] == a[0];
      assert (a + b)[1..] == a[1..] + b;
      HeadingsConcat(a[1..], b, tag);
      assert Headings(a + b, tag) == first + (Headings(a[1..], tag) + Headings(b, tag));
      assert Headings(a, tag) == first + Headings(a[1..], tag);
    }
  }

  lemma HeadingsPair(a: Node, b: Node, tag: string)
    ensures Headings([a, b], tag) == (if a.tag == tag then [a.text] else []) + (if b.tag == tag then [b.text] else [])
  {
    assert [a, b][1..] == [b];
    assert [b][1..] == [];
    var hb := if b.tag == tag then [b.text] else [];
    assert Headings([b], tag) == hb + [];
    assert hb + [] == hb;
  }

  /** The node right after the first heading of this tag and text among `cs`: the body of that section, if any. */
  function SectionAfter(cs: seq<Node>, tag: string, title: string): Option<Node>
  {
    if |cs| < 2 then None
    else if IsHeading(cs[0], tag, title) then Some(cs[1])
    else SectionAfter(cs[1..], tag, title)
  }

  /** Nodes that are not the sought heading can be skipped. */
  lemma {:induction false} SectionAfterSkip(a: seq<Node>, b: seq<Node>, tag: string, title: string)
    requires NoHeading(a, tag, title)
    ensures SectionAfter(a + b, tag, title) == SectionAfter(b, tag, title)
  {
    if a == [] {
      assert a + b == b;
    } else {
      assert (a + b)[1..] == a[1..] + b;
      assert !IsHeading((a + b)[0], tag, title);
      SectionAfterSkip(a[1..], b, tag, title);
    }
  }
}
