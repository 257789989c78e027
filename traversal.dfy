/** Scaffolding, not part of the visitor itself: a document tree and the
    depth-first walk that the visitor's base class drives (leaf: `visit`;
    compound: `visitPre`, the children in order, `visitPost`). It lets the
    tree-level consequences of the visitor's rules be stated: what a hidden
    subtree still writes, what a multi-fragment listing writes, and that
    flags are cleared rather than restored. */
module Traversal {
  import opened Text
  import opened DocNodes
  import opened HtmlMarkup

  datatype Node = LeafNode(leaf: Leaf) | CompoundNode(kind: Compound, children: seq<Node>)

  /** The state after walking `n` from `st`. Output is only ever appended. */
  function Render(env: Env, st: State, n: Node): (r: State)
    ensures st.out <= r.out && st.graphs <= r.graphs
    decreases n
  {
    match n
    case LeafNode(leaf) => VisitLeaf(env, st, leaf)
    case CompoundNode(c, cs) => Leave(env, RenderAll(env, Enter(env, st, c), cs), c)
  }

  /** The state after walking the siblings `ns` in order. */
  function RenderAll(env: Env, st: State, ns: seq<Node>): (r: State)
    ensures st.out <= r.out && st.graphs <= r.graphs
    decreases ns
  {
    if |ns| == 0 then st
    else Render(env, RenderAll(env, st, ns[..|ns| - 1]), ns[|ns| - 1])
  }

  lemma RenderOne(env: Env, st: State, n: Node)
    ensures RenderAll(env, st, [n]) == Render(env, st, n)
  {
    assert [n][..0] == [];
  }

  lemma RenderTwo(env: Env, st: State, a: Node, b: Node)
    ensures RenderAll(env, st, [a, b]) == Render(env, Render(env, st, a), b)
  {
    assert [a, b][..1] == [a];
    RenderOne(env, st, a);
  }

  /** Every compound node writes its opening markup first and its closing
      markup last, however many children it has. */
  lemma CompoundBrackets(env: Env, st: State, c: Compound, cs: seq<Node>)
    ensures var r := Render(env, st, CompoundNode(c, cs)).out;
      |st.out| + |PreMarkup(env, c)| + |PostMarkup(env, c)| <= |r|
      && r[..|st.out| + |PreMarkup(env, c)|] == st.out + PreMarkup(env, c)
      && r[|r| - |PostMarkup(env, c)|..] == PostMarkup(env, c)
  {
    var entered := Enter(env, st, c);
    var inner := RenderAll(env, entered, cs);
    assert entered.out == st.out + PreMarkup(env, c);
    assert entered.out <= inner.out;
    assert Render(env, st, CompoundNode(c, cs)).out == inner.out + PostMarkup(env, c);
  }

  predicate GuardedLeaves(ns: seq<Node>)
  {
    forall i :: 0 <= i < |ns| ==> ns[i].LeafNode? && IsGuarded(ns[i].leaf)
  }

  /** While m_hide is set, a run of guarded leaves writes nothing and changes nothing. */
  lemma {:induction false} HiddenLeavesWriteNothing(env: Env, st: State, ns: seq<Node>)
    requires st.hidden && GuardedLeaves(ns)
    ensures RenderAll(env, st, ns) == st
  {
    if |ns| > 0 {
      HiddenLeavesWriteNothing(env, st, ns[..|ns| - 1]);
    }
  }

  /** An index entry or a non-HTML image whose children are guarded leaves
      (an image's caption words, say) writes nothing, and leaves m_hide
      false even when it was set before: the flag is cleared, not restored. */
  lemma HidingNodeSuppressesLeaves(env: Env, st: State, c: Compound, ns: seq<Node>)
    requires HidesChildren(c) && GuardedLeaves(ns)
    ensures var r := Render(env, st, CompoundNode(c, ns));
      r.out == st.out && !r.hidden && r.insidePre == st.insidePre && r.graphs == st.graphs
  {
    HiddenLeavesWriteNothing(env, Enter(env, st, c), ns);
  }

  /** Structural markup is not suppressed: a list inside an index entry still
      writes its tags. */
  lemma HiddenStructureStillWritten(env: Env, st: State)
    ensures Render(env, st, CompoundNode(IndexEntry, [CompoundNode(HtmlList(Ordered), [])])).out
      == st.out + "<ol>\n" + "</ol>\n"
  {
    var list := CompoundNode(HtmlList(Ordered), []);
    var s1 := Enter(env, st, IndexEntry);
    RenderOne(env, s1, list);
    var e := Enter(env, s1, HtmlList(Ordered));
    assert RenderAll(env, e, []) == e;
    var s2 := Leave(env, e, HtmlList(Ordered));
    assert s2.out == st.out + "<ol>\n" + "</ol>\n";
    assert RenderAll(env, s1, [list]) == s2;
  }

  /** An index entry clears m_hide on its way out, so a word after it is
      written even when m_hide was set before the entry. */
  lemma EntryClearsHide(env: Env, st: State, w: string)
    ensures RenderAll(env, st.(hidden := true), [CompoundNode(IndexEntry, []), LeafNode(Word(w))])
      == st.(out := st.out + env.filter(w), hidden := false)
  {
    var entry := CompoundNode(IndexEntry, []);
    var s1 := st.(hidden := true);
    RenderTwo(env, s1, entry, LeafNode(Word(w)));
    var e := Enter(env, s1, IndexEntry);
    assert RenderAll(env, e, []) == e;
    var s2 := Leave(env, e, IndexEntry);
    assert s2 == st.(hidden := false);
  }

  /** Nested hiding is not save/restore: an index entry inside a non-HTML
      image clears m_hide, so the image's later caption words are written. */
  lemma NestedHideNotRestored(env: Env, st: State, name: string, w: string)
    ensures Render(env, st, CompoundNode(Image(Latex, name, true),
                                         [CompoundNode(IndexEntry, []), LeafNode(Word(w))])).out
      == st.out + env.filter(w)
  {
    HiddenImageWritesNothing(env, st, name, Latex, true);
    EntryClearsHide(env, st, w);
    HiddenImageWritesNothing(env, st.(out := st.out + env.filter(w), hidden := false), name, Latex, true);
  }

  /** A dot file inside a hidden image still asks for its diagram, and still
      writes its own markup. */
  lemma HiddenDiagramStillRequested(env: Env, st: State, name: string, file: string)
    ensures var r := Render(env, st, CompoundNode(Image(Rtf, name, false), [CompoundNode(DotFile(file, false), [])]));
      r.graphs == st.graphs + [GraphRequest(file, env.htmlOutput, DotBaseName(file))]
      && r.out == st.out + PreMarkup(env, DotFile(file, false)) + PostMarkup(env, DotFile(file, false))
      && !r.hidden
  {
    var img := Image(Rtf, name, false);
    var d := DotFile(file, false);
    var dot := CompoundNode(d, []);
    var s1 := st.(hidden := true);
    HiddenImageWritesNothing(env, st, name, Rtf, false);
    RenderOne(env, s1, dot);
    var e := Enter(env, s1, d);
    assert RenderAll(env, e, []) == e;
    var s2 := Leave(env, e, d);
    assert RenderAll(env, s1, [dot]) == s2;
    HiddenImageWritesNothing(env, s2, name, Rtf, false);
  }

  /** Whitespace inside a preformatted block is written verbatim; the block
      leaves m_insidePre false, whatever it was before. */
  lemma PreformattedWhitespace(env: Env, st: State, chars: string)
    requires !st.hidden
    ensures var r := Render(env, st, CompoundNode(HtmlPre, [LeafNode(WhiteSpace(chars))]));
      r.out == st.out + "<pre>\n" + chars + "</pre>\n" && !r.insidePre && !r.hidden
  {
    var ws := LeafNode(WhiteSpace(chars));
    var s1 := Enter(env, st, HtmlPre);
    assert s1 == st.(out := st.out + "<pre>\n", insidePre := true);
    RenderOne(env, s1, ws);
    var s2 := Render(env, s1, ws);
    assert s2.out == st.out + "<pre>\n" + chars;
  }

  // ---------------------------------------------------------------------------
  // Multi-fragment listings (\skip, \until, \line, \skipline)
  // ---------------------------------------------------------------------------

  function IncNodes(ops: seq<IncOp>): (r: seq<Node>)
    ensures |r| == |ops|
    ensures forall i :: 0 <= i < |ops| ==> r[i] == LeafNode(IncOperator(ops[i]))
  {
    seq(|ops|, i requires 0 <= i < |ops| => LeafNode(IncOperator(ops[i])))
  }

  /** What one fragment contributes inside the block: its highlighted text
      unless it is skipped, then a newline unless it is the last. */
  function FragmentText(env: Env, op: IncOp): string
  {
    (if op.opType == Skip then "" else env.highlight(op.context, op.text))
    + (if op.isLast then "" else "\n")
  }

  function FragmentsText(env: Env, ops: seq<IncOp>): string
  {
    if |ops| == 0 then ""
    else FragmentsText(env, ops[..|ops| - 1]) + FragmentText(env, ops[|ops| - 1])
  }

  /** A well-formed listing: exactly the first fragment is marked first and
      exactly the last is marked last (one fragment may be both). */
  predicate IncSequence(ops: seq<IncOp>)
  {
    |ops| > 0 && ops[0].isFirst && ops[|ops| - 1].isLast
    && (forall i :: 0 < i < |ops| ==> !ops[i].isFirst)
    && (forall i :: 0 <= i < |ops| - 1 ==> !ops[i].isLast)
  }

  /** A first fragment opens the block and hides; a later one adds its text
      to the open block; the last one closes it and clears m_hide. */
  lemma FirstFragment(env: Env, st: State, op: IncOp)
    requires op.isFirst
    ensures IncOperatorStep(env, st, op)
      == st.(out := st.out + FragmentOpen + FragmentText(env, op) + (if op.isLast then FragmentClose else ""),
             hidden := !op.isLast)
  {
  }

  lemma LaterFragment(env: Env, st: State, op: IncOp)
    requires !op.isFirst
    ensures IncOperatorStep(env, st, op)
      == st.(out := st.out + FragmentText(env, op) + (if op.isLast then FragmentClose else ""),
             hidden := !op.isLast && st.hidden)
  {
  }

  /** The fragment steps `ops` applied one after the other. */
  function Steps(env: Env, st: State, ops: seq<IncOp>): State
  {
    if |ops| == 0 then st else IncOperatorStep(env, Steps(env, st, ops[..|ops| - 1]), ops[|ops| - 1])
  }

  /** Walking the fragment leaves `ops` in order is applying their steps in order. */
  lemma {:induction false} WalkIsSteps(env: Env, st: State, ops: seq<IncOp>)
    ensures RenderAll(env, st, IncNodes(ops)) == Steps(env, st, ops)
  {
    if |ops| > 0 {
      assert IncNodes(ops)[..|ops| - 1] == IncNodes(ops[..|ops| - 1]);
      WalkIsSteps(env, st, ops[..|ops| - 1]);
    }
  }

  /** While no fragment is marked last, the block stays open and hidden,
      holding the text of every fragment so far. */
  lemma {:induction false} OpenListing(env: Env, st: State, ops: seq<IncOp>)
    requires |ops| > 0 && ops[0].isFirst
    requires forall i :: 0 < i < |ops| ==> !ops[i].isFirst
    requires forall i :: 0 <= i < |ops| ==> !ops[i].isLast
    ensures Steps(env, st, ops) == st.(out := st.out + FragmentOpen + FragmentsText(env, ops), hidden := true)
  {
    var n := |ops|;
    if n > 1 {
      var init, last := ops[..n - 1], ops[n - 1];
      OpenListing(env, st, init);
      LaterFragment(env, Steps(env, st, init), last);
      Regroup2(st.out + FragmentOpen, FragmentsText(env, init), FragmentText(env, last));
    } else {
      assert ops[..0] == [];
      FirstFragment(env, st, ops[0]);
    }
  }

  /** A listing opens the fragment block once, highlights every fragment
      that is not skipped, separates fragments by newlines, closes the block
      once and leaves m_hide false, whatever m_hide was before. */
  lemma IncludeListing(env: Env, st: State, ops: seq<IncOp>)
    requires IncSequence(ops)
    ensures RenderAll(env, st, IncNodes(ops))
      == st.(out := st.out + FragmentOpen + FragmentsText(env, ops) + FragmentClose, hidden := false)
  {
    var n := |ops|;
    WalkIsSteps(env, st, ops);
    if n > 1 {
      var init, last := ops[..n - 1], ops[n - 1];
      OpenListing(env, st, init);
      LaterFragment(env, Steps(env, st, init), last);
      Regroup2(st.out + FragmentOpen, FragmentsText(env, init), FragmentText(env, last));
    } else {
      assert ops[..0] == [];
      FirstFragment(env, st, ops[0]);
    }
  }

  /** Walking `a` and then `b` is walking `a + b`. */
  lemma {:induction false} RenderAllAppend(env: Env, st: State, a: seq<Node>, b: seq<Node>)
    ensures RenderAll(env, st, a + b) == RenderAll(env, RenderAll(env, st, a), b)
    decreases |b|
  {
    if |b| > 0 {
      var ab := a + b;
      assert ab[..|ab| - 1] == a + b[..|b| - 1];
      assert ab[|ab| - 1] == b[|b| - 1];
      RenderAllAppend(env, st, a, b[..|b| - 1]);
      assert RenderAll(env, st, ab) == Render(env, RenderAll(env, st, a + b[..|b| - 1]), b[|b| - 1]);
    } else {
      assert a + b == a;
    }
  }

  /** The fragments `ops` with the nodes of `gaps[j]` walked between
      fragment j and fragment j + 1. */
  function Interleaved(ops: seq<IncOp>, gaps: seq<seq<Node>>): (r: seq<Node>)
    requires |ops| > 0 && |gaps| == |ops| - 1
    ensures |r| >= |ops|
    decreases |ops|
  {
    if |ops| == 1 then [LeafNode(IncOperator(ops[0]))]
    else Interleaved(ops[..|ops| - 1], gaps[..|gaps| - 1]) + gaps[|gaps| - 1] + [LeafNode(IncOperator(ops[|ops| - 1]))]
  }

  predicate GuardedGaps(gaps: seq<seq<Node>>)
  {
    forall j :: 0 <= j < |gaps| ==> GuardedLeaves(gaps[j])
  }

  /** Up to and including the fragment marked last, the guarded leaves
      walked between fragments change nothing: the block is open and m_hide
      set while they are visited. */
  lemma {:induction false} InterleavedIsSteps(env: Env, st: State, ops: seq<IncOp>, gaps: seq<seq<Node>>)
    requires |ops| > 0 && ops[0].isFirst
    requires forall i :: 0 < i < |ops| ==> !ops[i].isFirst
    requires forall i :: 0 <= i < |ops| - 1 ==> !ops[i].isLast
    requires |gaps| == |ops| - 1 && GuardedGaps(gaps)
    ensures RenderAll(env, st, Interleaved(ops, gaps)) == Steps(env, st, ops)
  {
    var n := |ops|;
    var node := LeafNode(IncOperator(ops[n - 1]));
    if n > 1 {
      var init, initGaps, gap := ops[..n - 1], gaps[..n - 2], gaps[n - 2];
      var front := Interleaved(init, initGaps);
      InterleavedIsSteps(env, st, init, initGaps);
      OpenListing(env, st, init);
      var open := Steps(env, st, init);
      assert open.hidden;
      assert GuardedLeaves(gap);
      RenderAllAppend(env, st, front, gap);
      HiddenLeavesWriteNothing(env, open, gap);
      RenderAllAppend(env, st, front + gap, [node]);
      RenderOne(env, open, node);
    } else {
      assert ops[..0] == [];
      RenderOne(env, st, node);
    }
  }

  /** A listing whose fragments are separated by guarded leaves (the
      whitespace and words between \skip and \until) renders exactly as the
      fragments alone: those leaves are written nowhere. */
  lemma InterleavedListing(env: Env, st: State, ops: seq<IncOp>, gaps: seq<seq<Node>>)
    requires IncSequence(ops)
    requires |gaps| == |ops| - 1 && GuardedGaps(gaps)
    ensures RenderAll(env, st, Interleaved(ops, gaps)) == RenderAll(env, st, IncNodes(ops))
    ensures RenderAll(env, st, Interleaved(ops, gaps))
      == st.(out := st.out + FragmentOpen + FragmentsText(env, ops) + FragmentClose, hidden := false)
  {
    InterleavedIsSteps(env, st, ops, gaps);
    WalkIsSteps(env, st, ops);
    IncludeListing(env, st, ops);
  }

  /** The three-fragment case: first (shown), skipped, last (shown) is a
      well-formed listing whose body is the two highlighted texts with the
      skipped fragment reduced to its separating newline. */
  lemma FirstSkipLastText(env: Env, ctx: string, a: string, b: string, c: string)
    ensures var ops := [IncOp(Line, true, false, ctx, a), IncOp(Skip, false, false, ctx, b), IncOp(Line, false, true, ctx, c)];
      IncSequence(ops) && FragmentsText(env, ops) == env.highlight(ctx, a) + "\n" + "\n" + env.highlight(ctx, c)
  {
    var o0, o1, o2 := IncOp(Line, true, false, ctx, a), IncOp(Skip, false, false, ctx, b), IncOp(Line, false, true, ctx, c);
    var ops := [o0, o1, o2];
    var t0, t1, t2 := FragmentText(env, o0), FragmentText(env, o1), FragmentText(env, o2);
    assert t0 == env.highlight(ctx, a) + "\n" && t1 == "\n" && t2 == env.highlight(ctx, c);
    assert ops[..2] == [o0, o1] && [o0, o1][..1] == [o0] && [o0][..0] == [];
    assert FragmentsText(env, [o0]) == t0;
    assert FragmentsText(env, [o0, o1]) == t0 + t1;
    assert FragmentsText(env, ops) == t0 + t1 + t2;
  }

  /** Walking that listing writes one opening, the two highlighted texts
      separated by two newlines, and one closing. */
  lemma FirstSkipLast(env: Env, st: State, ctx: string, a: string, b: string, c: string)
    ensures var ops := [IncOp(Line, true, false, ctx, a), IncOp(Skip, false, false, ctx, b), IncOp(Line, false, true, ctx, c)];
      RenderAll(env, st, IncNodes(ops))
      == st.(out := st.out + FragmentOpen + (env.highlight(ctx, a) + "\n" + "\n" + env.highlight(ctx, c)) + FragmentClose,
             hidden := false)
  {
    var ops := [IncOp(Line, true, false, ctx, a), IncOp(Skip, false, false, ctx, b), IncOp(Line, false, true, ctx, c)];
    FirstSkipLastText(env, ctx, a, b, c);
    IncludeListing(env, st, ops);
  }
}
