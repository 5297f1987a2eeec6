/** The accessibility outline: a pre-order listing of elements with depths, rendered with a stack of kept depths. */
module Outline {

  /** An element: whether it is a generic container with no name, value or mark of its own, and the text of its line. */
  datatype Node = Node(dropped: bool, text: string)

  datatype Item = Item(depth: int, node: Node)

  /** A line of the outline, indented by two spaces a level. */
  datatype Line = Line(level: nat, text: string)

  /** The depths of the kept elements above the current one, innermost first. */
  datatype Stack = Empty | Push(top: int, below: Stack)

  function Size(kept: Stack): nat {
    if kept.Empty? then 0 else Size(kept.below) + 1
  }

  /** The stack without the innermost depths that are not above `depth`. */
  function Pop(kept: Stack, depth: int): Stack {
    if kept.Push? && kept.top >= depth then Pop(kept.below, depth) else kept
  }

  datatype State = State(lines: seq<Line>, kept: Stack)

  function Add(s: State, item: Item): State {
    var kept := Pop(s.kept, item.depth);
    if item.node.dropped then State(s.lines, kept)
    else State(s.lines + [Line(Size(kept), item.node.text)], Push(item.depth, kept))
  }

  /** The state after the first `k` elements. */
  function Rendered(items: seq<Item>, k: nat): State
    requires k <= |items|
  {
    if k == 0 then State([], Empty) else Add(Rendered(items, k - 1), items[k - 1])
  }

  method Render(items: seq<Item>) returns (lines: seq<Line>)
    ensures lines == Rendered(items, |items|).lines
  {
    lines := [];
    var kept := Empty;
    for i := 0 to |items|
      invariant Rendered(items, i) == State(lines, kept)
    {
      var depth := items[i].depth;
      ghost var before := kept;
      while kept.Push? && kept.top >= depth
        invariant Pop(kept, depth) == Pop(before, depth)
        decreases kept
      {
        kept := kept.below;
      }
      if !items[i].node.dropped {
        lines := lines + [Line(Size(kept), items[i].node.text)];
        kept := Push(depth, kept);
      }
    }
  }

  // The reference: elements as trees.

  /** An element with its children, before its later siblings. */
  datatype Forest = Nil | Cons(node: Node, children: Forest, rest: Forest)

  /** The pre-order listing a guest sends. */
  function Listing(f: Forest, depth: int): seq<Item> {
    match f
    case Nil => []
    case Cons(node, children, rest) => [Item(depth, node)] + Listing(children, depth + 1) + Listing(rest, depth)
  }

  /** The trees with every dropped element replaced by its children. */
  function Spliced(f: Forest): Forest {
    match f
    case Nil => Nil
    case Cons(node, children, rest) =>
      if node.dropped then Append(Spliced(children), Spliced(rest)) else Cons(node, Spliced(children), Spliced(rest))
  }

  function Append(a: Forest, b: Forest): Forest {
    match a
    case Nil => b
    case Cons(node, children, rest) => Cons(node, children, Append(rest, b))
  }

  /** Pre-order, each element indented by its number of ancestors. */
  function Lines(f: Forest, level: nat): seq<Line> {
    match f
    case Nil => []
    case Cons(node, children, rest) => [Line(level, node.text)] + Lines(children, level + 1) + Lines(rest, level)
  }

  lemma {:induction false} LinesAppend(a: Forest, b: Forest, level: nat)
    ensures Lines(Append(a, b), level) == Lines(a, level) + Lines(b, level)
  {
    match a
    case Nil =>
    case Cons(node, children, rest) => LinesAppend(rest, b, level);
  }

  lemma {:induction false} PopTwice(kept: Stack, depth: int, deeper: int)
    requires depth <= deeper
    ensures Pop(Pop(kept, deeper), depth) == Pop(kept, depth)
  {
    if kept.Push? && kept.top >= deeper {
      PopTwice(kept.below, depth, deeper);
    }
  }

  lemma {:induction false} PopTop(kept: Stack, depth: int)
    ensures var r := Pop(kept, depth); r.Push? ==> r.top < depth
  {
    if kept.Push? && kept.top >= depth {
      PopTop(kept.below, depth);
    }
  }

  lemma {:induction false} PopShrinks(kept: Stack, depth: int)
    ensures Size(Pop(kept, depth)) <= Size(kept)
  {
    if kept.Push? && kept.top >= depth {
      PopShrinks(kept.below, depth);
    }
  }

  /** Below an element at `depth`, one level deeper, the stack is as the element left it. */
  lemma AddPops(s: State, item: Item)
    ensures Pop(Add(s, item).kept, item.depth + 1) == Add(s, item).kept
    ensures Pop(Add(s, item).kept, item.depth) == Pop(s.kept, item.depth)
  {
    PopTwice(s.kept, item.depth, item.depth);
    PopTop(s.kept, item.depth);
  }

  /** From `s` to `t` the lines of the spliced forest were added below the kept depths above `depth`, which stay. */
  ghost predicate Adds(s: State, t: State, f: Forest, depth: int) {
    && t.lines == s.lines + Lines(Spliced(f), Size(Pop(s.kept, depth)))
    && Pop(t.kept, depth) == Pop(s.kept, depth)
  }

  /** An element's own line, if it is kept. */
  function Own(node: Node, level: nat): seq<Line> {
    if node.dropped then [] else [Line(level, node.text)]
  }

  /** The level of an element's children. */
  function Inside(node: Node, level: nat): nat {
    if node.dropped then level else level + 1
  }

  lemma SplicedLines(f: Forest, level: nat)
    requires f.Cons?
    ensures Lines(Spliced(f), level) ==
            Own(f.node, level) + Lines(Spliced(f.children), Inside(f.node, level)) + Lines(Spliced(f.rest), level)
  {
    LinesAppend(Spliced(f.children), Spliced(f.rest), level);
  }

  lemma Chain(s: seq<Line>, a: seq<Line>, b: seq<Line>, c: seq<Line>, all: seq<Line>)
    requires all == a + b + c
    ensures s + a + b + c == s + all
  {
  }

  /** The levels at which an element's children and its later siblings are rendered. */
  lemma ConsLevels(s: State, f: Forest, depth: int, first: State, middle: State)
    requires f.Cons? && first == Add(s, Item(depth, f.node))
    requires Pop(middle.kept, depth + 1) == Pop(first.kept, depth + 1)
    ensures Size(Pop(first.kept, depth + 1)) == Inside(f.node, Size(Pop(s.kept, depth)))
    ensures first.lines == s.lines + Own(f.node, Size(Pop(s.kept, depth)))
    ensures Pop(middle.kept, depth) == Pop(s.kept, depth)
  {
    AddPops(s, Item(depth, f.node));
    PopTwice(first.kept, depth, depth + 1);
    PopTwice(middle.kept, depth, depth + 1);
  }

  lemma AddsCons(s: State, f: Forest, depth: int, first: State, middle: State, t: State)
    requires f.Cons? && first == Add(s, Item(depth, f.node))
    requires Adds(first, middle, f.children, depth + 1) && Adds(middle, t, f.rest, depth)
    ensures Adds(s, t, f, depth)
  {
    ConsLevels(s, f, depth, first, middle);
    var level := Size(Pop(s.kept, depth));
    SplicedLines(f, level);
    Chain(s.lines, Own(f.node, level), Lines(Spliced(f.children), Inside(f.node, level)), Lines(Spliced(f.rest), level),
          Lines(Spliced(f), level));
  }

  ghost predicate Holds(items: seq<Item>, i: nat, part: seq<Item>) {
    i + |part| <= |items| && forall k :: 0 <= k < |part| ==> items[i + k] == part[k]
  }

  lemma HoldsParts(items: seq<Item>, i: nat, first: Item, below: seq<Item>, after: seq<Item>)
    requires Holds(items, i, [first] + below + after)
    ensures items[i] == first && Holds(items, i + 1, below) && Holds(items, i + 1 + |below|, after)
  {
    var all := [first] + below + after;
    assert items[i + 0] == all[0];
    forall k | 0 <= k < |below| ensures items[i + 1 + k] == below[k] {
      assert all[1 + k] == below[k];
    }
    forall k | 0 <= k < |after| ensures items[i + 1 + |below| + k] == after[k] {
      assert all[1 + |below| + k] == after[k];
    }
  }

  /** Rendering the listing of a forest, at any point of a longer listing, adds the forest's lines. */
  lemma {:induction false} ListingAdds(items: seq<Item>, i: nat, f: Forest, depth: int)
    requires Holds(items, i, Listing(f, depth))
    ensures Adds(Rendered(items, i), Rendered(items, i + |Listing(f, depth)|), f, depth)
    decreases f
  {
    match f
    case Nil =>
    case Cons(node, children, rest) =>
      var below := Listing(children, depth + 1);
      var j := i + 1 + |below|;
      HoldsParts(items, i, Item(depth, node), below, Listing(rest, depth));
      ListingAdds(items, i + 1, children, depth + 1);
      ListingAdds(items, j, rest, depth);
      AddsCons(Rendered(items, i), f, depth, Rendered(items, i + 1), Rendered(items, j),
               Rendered(items, j + |Listing(rest, depth)|));
  }

  /** A guest's listing renders as the outline of its trees with the unnamed generic elements spliced out. */
  lemma RenderIsOutline(f: Forest)
    ensures Rendered(Listing(f, 0), |Listing(f, 0)|).lines == Lines(Spliced(f), 0)
  {
    ListingAdds(Listing(f, 0), 0, f, 0);
  }

  ghost predicate Smooth(lines: seq<Line>) {
    && (lines != [] ==> lines[0].level == 0)
    && (forall i, j :: 0 <= i && j == i + 1 < |lines| ==> lines[j].level <= lines[i].level + 1)
  }

  /** The stack is at most one deeper than the last line. */
  ghost predicate Calm(s: State) {
    Smooth(s.lines) && Size(s.kept) <= (if s.lines == [] then 0 else s.lines[|s.lines| - 1].level + 1)
  }

  lemma AddCalm(s: State, item: Item)
    requires Calm(s)
    ensures Calm(Add(s, item))
  {
    PopShrinks(s.kept, item.depth);
  }

  /** Whatever depths a guest sends, the first line is at the margin and no line is more than one level deeper than the
      one before it. */
  lemma {:induction false} NeverJumps(items: seq<Item>, k: nat)
    requires k <= |items|
    ensures Calm(Rendered(items, k))
  {
    if k > 0 {
      NeverJumps(items, k - 1);
      AddCalm(Rendered(items, k - 1), items[k - 1]);
    }
  }
}
