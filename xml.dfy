/**
 * The invoice document as a tree of elements, and the text the service writes for
 * it: a declaration line, then one line per element, each opening and closing tag
 * indented by two spaces per level and every line ended by a line feed except the
 * last one. Decimal numbers stay `Fixed(value, places)` until rendering, where a
 * formatter standing for `Number.prototype.toFixed` turns them into text.
 */
module Xml {
  import opened Wrappers

  datatype Text = Plain(s: string) | Fixed(value: int, places: nat)

  datatype Attr = Attr(name: string, value: string)

  datatype Node =
    | Elem(tag: string, attrs: seq<Attr>, kids: seq<Node>)
    | Leaf(tag: string, text: Text)

  /** `value.toFixed(places)`: not interpreted here. */
  type Formatter = (int, nat) -> string

  function TextOf(t: Text, fmt: Formatter): string {
    match t
    case Plain(s) => s
    case Fixed(v, p) => fmt(v, p)
  }

  function Indent(depth: nat): (r: string)
    ensures |r| == 2 * depth && forall i :: 0 <= i < |r| ==> r[i] == ' '
  {
    seq(2 * depth, _ => ' ')
  }

  function AttrsText(attrs: seq<Attr>): string {
    if |attrs| == 0 then "" else " " + attrs[0].name + "=\"" + attrs[0].value + "\"" + AttrsText(attrs[1..])
  }

  function OpenTag(tag: string, attrs: seq<Attr>): string {
    "<" + tag + AttrsText(attrs) + ">"
  }

  function CloseTag(tag: string): string {
    "</" + tag + ">"
  }

  /** The lines of one element at nesting level `depth`, the last one without its line feed. */
  function Block(n: Node, depth: nat, fmt: Formatter): string
    decreases n, 1
  {
    match n
    case Leaf(tag, text) =>
      Indent(depth) + OpenTag(tag, []) + TextOf(text, fmt) + CloseTag(tag)
    case Elem(tag, attrs, kids) =>
      Indent(depth) + OpenTag(tag, attrs) + "\n" + MarkupSeq(kids, depth + 1, fmt) + Indent(depth) + CloseTag(tag)
  }

  /** The lines of one element, each ended by a line feed. */
  function Markup(n: Node, depth: nat, fmt: Formatter): string
    decreases n, 2
  {
    Block(n, depth, fmt) + "\n"
  }

  function MarkupSeq(kids: seq<Node>, depth: nat, fmt: Formatter): string
    decreases kids, 0
  {
    if |kids| == 0 then "" else Markup(kids[0], depth, fmt) + MarkupSeq(kids[1..], depth, fmt)
  }

  /** Consecutive elements are written one after the other. */
  lemma {:induction false} MarkupSeqAppend(a: seq<Node>, b: seq<Node>, depth: nat, fmt: Formatter)
    ensures MarkupSeq(a + b, depth, fmt) == MarkupSeq(a, depth, fmt) + MarkupSeq(b, depth, fmt)
  {
    if |a| > 0 {
      assert (a + b)[0] == a[0];
      assert (a + b)[1..] == a[1..] + b;
      MarkupSeqAppend(a[1..], b, depth, fmt);
    } else {
      assert a + b == b;
    }
  }

  const Declaration: string := "<?xml version=\"1.0\" encoding=\"UTF-8\"?>"

  /** The whole document: the declaration line, then the root element without a final line feed. */
  function Render(root: Node, fmt: Formatter): string {
    Declaration + "\n" + Block(root, 0, fmt)
  }

  /** The tags of a sequence of elements, in order. */
  function Tags(kids: seq<Node>): (ts: seq<string>)
    ensures |ts| == |kids| && forall k :: 0 <= k < |kids| ==> ts[k] == kids[k].tag
  {
    seq(|kids|, k requires 0 <= k < |kids| => kids[k].tag)
  }

  predicate IsLeafWith(n: Node, tag: string) { n.Leaf? && n.tag == tag }

  /** The text of the first simple child element named `tag`, if there is one. */
  function LeafText(kids: seq<Node>, tag: string): (r: Option<Text>)
    ensures r.None? <==> forall k :: 0 <= k < |kids| ==> !IsLeafWith(kids[k], tag)
    ensures r.Some? ==> exists k :: 0 <= k < |kids| && kids[k] == Leaf(tag, r.value)
  {
    if |kids| == 0 then None
    else if IsLeafWith(kids[0], tag) then Some(kids[0].text)
    else
      var r := LeafText(kids[1..], tag);
      assert forall k :: 1 <= k < |kids| ==> kids[k] == kids[1..][k - 1];
      r
  }

  /** The first simple child named `tag` of `a + b` is the one in `a`, or else the one in `b`. */
  lemma {:induction false} LeafTextAppend(a: seq<Node>, b: seq<Node>, tag: string)
    ensures LeafText(a + b, tag) == if LeafText(a, tag).Some? then LeafText(a, tag) else LeafText(b, tag)
  {
    if |a| == 0 {
      assert a + b == b;
    } else {
      assert (a + b)[0] == a[0];
      assert (a + b)[1..] == a[1..] + b;
      LeafTextAppend(a[1..], b, tag);
    }
  }

  lemma Assoc(a: string, b: string, c: string)
    ensures a + (b + c) == a + b + c
  {
  }

  /** Appending one element's lines after a run of elements written at the same level. */
  lemma MarkupSeqSnoc(h: string, done: seq<Node>, n: Node, depth: nat, fmt: Formatter)
    ensures h + MarkupSeq(done, depth, fmt) + Markup(n, depth, fmt) == h + MarkupSeq(done + [n], depth, fmt)
  {
    MarkupSeqAppend(done, [n], depth, fmt);
    var m := Markup(n, depth, fmt);
    assert MarkupSeq([n], depth, fmt) == m + MarkupSeq([], depth, fmt);
    assert m + "" == m;
    Assoc(h, MarkupSeq(done, depth, fmt), m);
  }

  /** An element written as its opening line, its children one level deeper, and its closing line. */
  lemma ElemPieces(h: string, n: Node, depth: nat, fmt: Formatter)
    requires n.Elem?
    ensures h + Indent(depth) + OpenTag(n.tag, n.attrs) + "\n" + MarkupSeq(n.kids, depth + 1, fmt)
            + Indent(depth) + CloseTag(n.tag) + "\n"
         == h + Markup(n, depth, fmt)
  {
    var i, o, k, c := Indent(depth), OpenTag(n.tag, n.attrs), MarkupSeq(n.kids, depth + 1, fmt), CloseTag(n.tag);
    var b := i + o + "\n" + k + i + c;
    assert Block(n, depth, fmt) == b;
    assert Markup(n, depth, fmt) == b + "\n";
    Assoc(h, b, "\n");
    Assoc(h, i + o + "\n" + k + i, c);
    Assoc(h, i + o + "\n" + k, i);
    Assoc(h, i + o + "\n", k);
    Assoc(h, i + o, "\n");
    Assoc(h, i, o);
  }

  /** A document whose root holds exactly one element. */
  lemma TwoLevelRender(t1: string, a1: seq<Attr>, t2: string, a2: seq<Attr>, kids: seq<Node>, fmt: Formatter)
    ensures Render(Elem(t1, a1, [Elem(t2, a2, kids)]), fmt)
         == Declaration + "\n" + OpenTag(t1, a1) + "\n" + Indent(1) + OpenTag(t2, a2) + "\n"
            + MarkupSeq(kids, 2, fmt) + Indent(1) + CloseTag(t2) + "\n" + CloseTag(t1)
  {
    var inner := Elem(t2, a2, kids);
    var o1, o2, i, k, c2, c1 := OpenTag(t1, a1), OpenTag(t2, a2), Indent(1), MarkupSeq(kids, 2, fmt), CloseTag(t2), CloseTag(t1);
    var d := Declaration + "\n";
    var b := i + o2 + "\n" + k + i + c2;
    assert Block(inner, 1, fmt) == b;
    assert MarkupSeq([inner], 1, fmt) == b + "\n" + MarkupSeq([], 1, fmt);
    assert b + "\n" + "" == b + "\n";
    assert Indent(0) == "";
    assert Block(Elem(t1, a1, [inner]), 0, fmt) == "" + o1 + "\n" + (b + "\n") + "" + c1;
    assert "" + o1 == o1;
    assert o1 + "\n" + (b + "\n") + "" == o1 + "\n" + (b + "\n");
    Assoc(o1 + "\n", b, "\n");
    Assoc(o1 + "\n", i + o2 + "\n" + k + i, c2);
    Assoc(o1 + "\n", i + o2 + "\n" + k, i);
    Assoc(o1 + "\n", i + o2 + "\n", k);
    Assoc(o1 + "\n", i + o2, "\n");
    Assoc(o1 + "\n", i, o2);
    var body := o1 + "\n" + i + o2 + "\n" + k + i + c2 + "\n";
    assert Block(Elem(t1, a1, [inner]), 0, fmt) == body + c1;
    Assoc(d, body, c1);
    Assoc(d, o1 + "\n" + i + o2 + "\n" + k + i + c2, "\n");
    Assoc(d, o1 + "\n" + i + o2 + "\n" + k + i, c2);
    Assoc(d, o1 + "\n" + i + o2 + "\n" + k, i);
    Assoc(d, o1 + "\n" + i + o2 + "\n", k);
    Assoc(d, o1 + "\n" + i + o2, "\n");
    Assoc(d, o1 + "\n" + i, o2);
    Assoc(d, o1 + "\n", i);
    Assoc(d, o1, "\n");
  }

  lemma TagsAppend(a: seq<Node>, b: seq<Node>)
    ensures Tags(a + b) == Tags(a) + Tags(b)
  {
  }
}
