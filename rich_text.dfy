/** Rich-text content as the case-study modal receives it, and the cleaning
    pass that drops null entries from the marks of spans before rendering. */
module RichText {
  import opened Wrappers

  /** One node of portable text: a block with (maybe) children, a span with
      (maybe) a list of marks whose entries may be null, or any other node,
      which the cleaning pass never looks into. */
  datatype Node =
    | Block(style: Option<string>, children: Option<seq<Node>>)
    | Span(text: string, marks: Option<seq<Option<string>>>)
    | Other(kind: string)

  /** A text field's value: an array of nodes, or something else (a plain
      string), which the pass hands back as it is. */
  datatype TextValue = Portable(blocks: seq<Node>) | PlainText(s: string)

  /** `marks.filter(mark => mark != null)`. */
  function CleanMarks(ms: seq<Option<string>>): (r: seq<Option<string>>)
    ensures forall i :: 0 <= i < |r| ==> r[i].Some?
    ensures multiset(r) == multiset(ms)[None := 0]
    decreases |ms|
  {
    if |ms| == 0 then []
    else
      var rest := CleanMarks(ms[1..]);
      assert ms == [ms[0]] + ms[1..];
      if ms[0].None? then rest else [ms[0]] + rest
  }

  /** Filtering keeps the marks' order: it distributes over concatenation. */
  lemma {:induction false} CleanMarksAppend(a: seq<Option<string>>, b: seq<Option<string>>)
    ensures CleanMarks(a + b) == CleanMarks(a) + CleanMarks(b)
    decreases |a|
  {
    if |a| == 0 {
      assert a + b == b;
    } else {
      assert (a + b)[0] == a[0];
      assert (a + b)[1..] == a[1..] + b;
      CleanMarksAppend(a[1..], b);
    }
  }

  /** A list without nulls is its own cleaning, and only such a list is. */
  lemma {:induction false} CleanMarksFixpoint(ms: seq<Option<string>>)
    ensures CleanMarks(ms) == ms <==> forall i :: 0 <= i < |ms| ==> ms[i].Some?
    decreases |ms|
  {
    if |ms| > 0 {
      CleanMarksFixpoint(ms[1..]);
      if ms[0].None? {
        assert |CleanMarks(ms)| == |CleanMarks(ms[1..])| <= |ms[1..]| < |ms| by {
          assert |CleanMarks(ms[1..])| == |multiset(CleanMarks(ms[1..]))|;
          MultisetRemoveBound(ms[1..]);
        }
      } else {
        assert forall i :: 1 <= i < |ms| ==> ms[i] == ms[1..][i - 1];
      }
    }
  }

  lemma MultisetRemoveBound(ms: seq<Option<string>>)
    ensures |multiset(CleanMarks(ms))| <= |ms|
  {
    var m := multiset(ms);
    assert |m[None := 0]| <= |m| by {
      assert m[None := 0] <= m;
    }
  }

  /** A child of a block: a span with marks gets its marks cleaned; anything
      else is left alone. */
  function CleanChild(n: Node): (r: Node)
    ensures r.Block? == n.Block? && r.Span? == n.Span? && r.Other? == n.Other?
    ensures !n.Span? || n.marks.None? ==> r == n
    ensures n.Span? && n.marks.Some? ==>
      r.text == n.text && r.marks.Some? && r.marks.value == CleanMarks(n.marks.value)
  {
    if n.Span? && n.marks.Some? then n.(marks := Some(CleanMarks(n.marks.value))) else n
  }

  function CleanChildren(kids: seq<Node>): (r: seq<Node>)
    ensures |r| == |kids|
    ensures forall i :: 0 <= i < |kids| ==> r[i] == CleanChild(kids[i])
  {
    seq(|kids|, i requires 0 <= i < |kids| => CleanChild(kids[i]))
  }

  /** A top-level entry: a block with children gets each child cleaned. */
  function CleanBlock(n: Node): (r: Node)
    ensures r.Block? == n.Block? && r.Span? == n.Span? && r.Other? == n.Other?
    ensures !n.Block? || n.children.None? ==> r == n
    ensures n.Block? && n.children.Some? ==>
      r.style == n.style && r.children.Some? && r.children.value == CleanChildren(n.children.value)
  {
    if n.Block? && n.children.Some? then n.(children := Some(CleanChildren(n.children.value))) else n
  }

  /** `cleanBlockContent`: anything that is not an array comes back as it is;
      an array comes back entry by entry, each cleaned one level deep. */
  function CleanBlockContent(v: TextValue): (r: TextValue)
    ensures v.PlainText? ==> r == v
    ensures v.Portable? ==> r.Portable? && |r.blocks| == |v.blocks|
    ensures v.Portable? ==> forall i :: 0 <= i < |v.blocks| ==> r.blocks[i] == CleanBlock(v.blocks[i])
  {
    match v
    case PlainText(_) => v
    case Portable(blocks) => Portable(seq(|blocks|, i requires 0 <= i < |blocks| => CleanBlock(blocks[i])))
  }

  /** No null mark on a span that is a direct child of a top-level block. */
  predicate ChildClean(n: Node) {
    n.Span? && n.marks.Some? ==> forall j :: 0 <= j < |n.marks.value| ==> n.marks.value[j].Some?
  }

  predicate BlockClean(n: Node) {
    n.Block? && n.children.Some? ==> forall k :: 0 <= k < |n.children.value| ==> ChildClean(n.children.value[k])
  }

  predicate IsClean(v: TextValue) {
    v.Portable? ==> forall i :: 0 <= i < |v.blocks| ==> BlockClean(v.blocks[i])
  }

  /** The pass leaves no null mark where it looks. */
  lemma CleanedIsClean(v: TextValue)
    ensures IsClean(CleanBlockContent(v))
  {
  }

  lemma CleanChildFixpoint(n: Node)
    ensures CleanChild(n) == n <==> ChildClean(n)
  {
    if n.Span? && n.marks.Some? {
      CleanMarksFixpoint(n.marks.value);
    }
  }

  lemma CleanBlockFixpoint(n: Node)
    ensures CleanBlock(n) == n <==> BlockClean(n)
  {
    if n.Block? && n.children.Some? {
      var kids := n.children.value;
      forall k | 0 <= k < |kids| {
        CleanChildFixpoint(kids[k]);
      }
      if CleanBlock(n) == n {
        assert CleanChildren(kids) == kids;
        forall k | 0 <= k < |kids| ensures ChildClean(kids[k]) {
          assert CleanChildren(kids)[k] == kids[k];
        }
      }
      if BlockClean(n) {
        assert CleanChildren(kids) == kids;
      }
    }
  }

  /** Content is unchanged by the pass exactly when it is already clean;
      so cleaning twice is cleaning once. */
  lemma CleanFixpoint(v: TextValue)
    ensures CleanBlockContent(v) == v <==> IsClean(v)
    ensures CleanBlockContent(CleanBlockContent(v)) == CleanBlockContent(v)
  {
    if v.Portable? {
      var bs := v.blocks;
      forall i | 0 <= i < |bs| {
        CleanBlockFixpoint(bs[i]);
      }
      if CleanBlockContent(v) == v {
        forall i | 0 <= i < |bs| ensures BlockClean(bs[i]) {
          assert CleanBlockContent(v).blocks[i] == bs[i];
        }
      }
      var w := CleanBlockContent(v);
      CleanedIsClean(v);
      forall i | 0 <= i < |w.blocks| {
        CleanBlockFixpoint(w.blocks[i]);
      }
    }
  }
}
