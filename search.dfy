/**
 * The search box of the graph view (ui-controls.js): a typed term dims the
 * nodes that do not match it and the links that do not join two matches;
 * an empty term, or the clear button, restores the resting styles. This is
 * the rule the handler applies to the d3 `.node` and `.link` elements; the
 * elements themselves and the page they sit on are not modelled.
 */
module Search {
  import opened Values
  import opened Text

  /** The data bound to a drawn node: its id and the three texts a search looks at (`caption` is its `label` field). */
  datatype NodeDatum = NodeDatum(id: string, caption: Option<string>, nodeType: Option<string>, category: Option<string>)

  /** The data bound to a drawn link: the ids of its endpoint nodes. */
  datatype LinkDatum = LinkDatum(source: string, target: string)

  /** The opacity levels the search assigns. */
  datatype Opacity =
    | Opaque           // node, shown in full (1)
    | Dimmed           // node that does not match (0.2)
    | Resting          // link when no search is active (0.6)
    | Emphasised       // link between two matching nodes (0.8)
    | Faded            // any other link during a search (0.1)

  /** The CSS opacity of each level, in hundredths. */
  function Alpha(o: Opacity): (a: nat)
    ensures 0 < a <= 100
  {
    match o
    case Opaque => 100
    case Dimmed => 20
    case Resting => 60
    case Emphasised => 80
    case Faded => 10
  }

  /** The opacities written into the drawn nodes and links, in selection order. */
  datatype Styles = Styles(nodes: seq<Opacity>, links: seq<Opacity>)

  /** The term as the handler uses it: lower-cased, then trimmed. */
  function Normalize(raw: string): (r: string)
    ensures IsLower(r)
    ensures r == [] || (!IsWhitespace(r[0]) && !IsWhitespace(r[|r| - 1]))
  {
    LowerIsLower(raw);
    Trim(Lower(raw))
  }

  /** A normalised term is lower case and has no whitespace at either end, so normalising again changes nothing. */
  lemma NormalizeIdempotent(raw: string)
    ensures Normalize(Normalize(raw)) == Normalize(raw)
  {
    var t := Normalize(raw);
    LowerIsLower(raw);
    assert IsLower(t);
    LowerOfLower(t);
    TrimIdempotent(Lower(raw));
  }

  /** A term normalises to the empty string exactly when it is empty or all whitespace. */
  lemma NormalizeBlankIffWhitespace(raw: string)
    ensures Normalize(raw) == "" <==> forall i :: 0 <= i < |raw| ==> IsWhitespace(raw[i])
  {
    TrimEmptyIffBlank(Lower(raw));
    forall i | 0 <= i < |raw| ensures IsWhitespace(Lower(raw)[i]) <==> IsWhitespace(raw[i]) {
      LowerKeepsWhitespace(raw[i]);
    }
  }

  /** The text a node's label is searched in: its label, falling back to its id, then to `''`, lower-cased. */
  function LabelText(n: NodeDatum): (r: string)
    ensures !Falsy(n.caption) ==> |r| == |n.caption.value|
    ensures Falsy(n.caption) ==> |r| == |n.id|
    ensures IsLower(r)
  {
    LowerIsLower(Or(n.caption, Or(Some(n.id), "")));
    Lower(Or(n.caption, Or(Some(n.id), "")))
  }

  /** A node matches a term that occurs in its label text, its lower-cased type or its lower-cased category. */
  predicate Matches(term: string, n: NodeDatum)
    ensures term == "" ==> Matches(term, n)
  {
    Contains(LabelText(n), term) ||
    Contains(Lower(Or(n.nodeType, "")), term) ||
    Contains(Lower(Or(n.category, "")), term)
  }

  /** The ids of the nodes that match `term`. */
  function MatchingIds(term: string, nodes: seq<NodeDatum>): (r: set<string>)
    ensures forall n :: n in nodes && Matches(term, n) ==> n.id in r
  {
    set n | n in nodes && Matches(term, n) :: n.id
  }

  /** An id is in the matching set exactly when some node with that id matches. */
  lemma MatchingIdsExact(term: string, nodes: seq<NodeDatum>, id: string)
    ensures id in MatchingIds(term, nodes) <==>
      exists i :: 0 <= i < |nodes| && nodes[i].id == id && Matches(term, nodes[i])
  {
    if id in MatchingIds(term, nodes) {
      var n :| n in nodes && Matches(term, n) && n.id == id;
      var i :| 0 <= i < |nodes| && nodes[i] == n;
    }
  }

  lemma MatchingIdsAppend(term: string, nodes: seq<NodeDatum>, n: NodeDatum)
    ensures MatchingIds(term, nodes + [n]) ==
      MatchingIds(term, nodes) + (if Matches(term, n) then {n.id} else {})
  {
    assert forall m :: m in nodes + [n] <==> m in nodes || m == n;
  }

  /** The level of a node during a search. */
  function NodeLevel(term: string, n: NodeDatum): (r: Opacity)
    ensures r == Opaque || r == Dimmed
    ensures r == Opaque <==> Matches(term, n)
  {
    if Matches(term, n) then Opaque else Dimmed
  }

  /** The level of a link during a search: emphasised only when both endpoints are matching ids. */
  function LinkLevel(matching: set<string>, l: LinkDatum): (r: Opacity)
    ensures r == Emphasised || r == Faded
    ensures r == Emphasised <==> l.source in matching && l.target in matching
  {
    if l.source in matching && l.target in matching then Emphasised else Faded
  }

  /** The level of every node, in selection order. */
  function NodeLevels(term: string, nodes: seq<NodeDatum>): (r: seq<Opacity>)
    ensures |r| == |nodes|
  {
    seq(|nodes|, i requires 0 <= i < |nodes| => NodeLevel(term, nodes[i]))
  }

  /** The level of every link, in selection order. */
  function LinkLevels(matching: set<string>, links: seq<LinkDatum>): (r: seq<Opacity>)
    ensures |r| == |links|
  {
    seq(|links|, i requires 0 <= i < |links| => LinkLevel(matching, links[i]))
  }

  /** The styles one input event leaves behind (the reference for `OnSearchInput`). */
  function SearchStyles(raw: string, nodes: seq<NodeDatum>, links: seq<LinkDatum>): (r: Styles)
    ensures |r.nodes| == |nodes| && |r.links| == |links|
    ensures Normalize(raw) == "" ==> forall i :: 0 <= i < |links| ==> r.links[i] == Resting
    ensures Normalize(raw) != "" ==> forall i :: 0 <= i < |links| ==> r.links[i] != Resting
  {
    var term := Normalize(raw);
    if term == "" then
      Styles(seq(|nodes|, _ => Opaque), seq(|links|, _ => Resting))
    else
      Styles(NodeLevels(term, nodes), LinkLevels(MatchingIds(term, nodes), links))
  }

  /**
   * The node pass of the handler: visits the nodes in order, adds the id of
   * each match to the set, and gives each node its level.
   */
  method MarkNodes(term: string, nodes: seq<NodeDatum>) returns (matching: set<string>, levels: seq<Opacity>)
    ensures matching == MatchingIds(term, nodes)
    ensures |levels| == |nodes|
    ensures forall i :: 0 <= i < |nodes| ==> levels[i] == NodeLevel(term, nodes[i])
  {
    matching := {};
    levels := [];
    var k := 0;
    while k < |nodes|
      invariant 0 <= k <= |nodes|
      invariant matching == MatchingIds(term, nodes[..k])
      invariant |levels| == k
      invariant forall i :: 0 <= i < k ==> levels[i] == NodeLevel(term, nodes[i])
    {
      var n := nodes[k];
      assert nodes[..k + 1] == nodes[..k] + [n];
      MatchingIdsAppend(term, nodes[..k], n);
      if Matches(term, n) {
        matching := matching + {n.id};
        levels := levels + [Opaque];
      } else {
        levels := levels + [Dimmed];
      }
      k := k + 1;
    }
    assert nodes[..k] == nodes;
  }

  /** The link pass of the handler: gives each link its level from the matching set. */
  method MarkLinks(matching: set<string>, links: seq<LinkDatum>) returns (levels: seq<Opacity>)
    ensures |levels| == |links|
    ensures forall i :: 0 <= i < |links| ==>
      (levels[i] == Emphasised <==> links[i].source in matching && links[i].target in matching) &&
      (levels[i] == Emphasised || levels[i] == Faded)
  {
    levels := [];
    var k := 0;
    while k < |links|
      invariant 0 <= k <= |links|
      invariant |levels| == k
      invariant forall i :: 0 <= i < k ==> levels[i] == LinkLevel(matching, links[i])
    {
      var l := links[k];
      if l.source in matching && l.target in matching {
        levels := levels + [Emphasised];
      } else {
        levels := levels + [Faded];
      }
      k := k + 1;
    }
  }

  /** The `input` handler of the search box. */
  method OnSearchInput(raw: string, nodes: seq<NodeDatum>, links: seq<LinkDatum>) returns (styles: Styles)
    ensures styles == SearchStyles(raw, nodes, links)
  {
    var term := Trim(Lower(raw));
    if term == "" {
      styles := Styles(seq(|nodes|, _ => Opaque), seq(|links|, _ => Resting));
      return;
    }
    var matching, nodeLevels := MarkNodes(term, nodes);
    var linkLevels := MarkLinks(matching, links);
    assert nodeLevels == NodeLevels(term, nodes);
    assert linkLevels == LinkLevels(matching, links);
    styles := Styles(nodeLevels, linkLevels);
  }

  /** The clear button: empties the search box and runs the `input` handler on the empty term. */
  method OnClear(nodes: seq<NodeDatum>, links: seq<LinkDatum>) returns (box: string, styles: Styles)
    ensures box == ""
    ensures |styles.nodes| == |nodes| && forall i :: 0 <= i < |nodes| ==> styles.nodes[i] == Opaque
    ensures |styles.links| == |links| && forall i :: 0 <= i < |links| ==> styles.links[i] == Resting
  {
    box := "";
    styles := OnSearchInput(box, nodes, links);
    assert Lower(box) == "";
    assert Normalize(box) == "";
  }

  /** A blank term (empty or all whitespace) restores every node to full opacity and every link to its resting level. */
  lemma BlankTermResets(raw: string, nodes: seq<NodeDatum>, links: seq<LinkDatum>)
    requires forall i :: 0 <= i < |raw| ==> IsWhitespace(raw[i])
    ensures var st := SearchStyles(raw, nodes, links);
      |st.nodes| == |nodes| && (forall i :: 0 <= i < |nodes| ==> st.nodes[i] == Opaque) &&
      |st.links| == |links| && (forall i :: 0 <= i < |links| ==> st.links[i] == Resting)
  {
    NormalizeBlankIffWhitespace(raw);
  }

  /**
   * During a search every node gets exactly one level, full when it matches
   * and dimmed when it does not, and a link is emphasised exactly when each of
   * its endpoints is the id of some matching node; a link with only one
   * matching endpoint is faded.
   */
  lemma SearchClassifies(raw: string, nodes: seq<NodeDatum>, links: seq<LinkDatum>)
    requires exists i :: 0 <= i < |raw| && !IsWhitespace(raw[i])
    ensures var st := SearchStyles(raw, nodes, links); var term := Normalize(raw);
      |st.nodes| == |nodes| && |st.links| == |links| &&
      (forall i :: 0 <= i < |nodes| ==>
        (st.nodes[i] == Opaque <==> Matches(term, nodes[i])) &&
        (st.nodes[i] == Opaque || st.nodes[i] == Dimmed)) &&
      (forall i :: 0 <= i < |links| ==>
        (st.links[i] == Emphasised || st.links[i] == Faded) &&
        (st.links[i] == Emphasised <==>
          (exists a :: 0 <= a < |nodes| && nodes[a].id == links[i].source && Matches(term, nodes[a])) &&
          (exists b :: 0 <= b < |nodes| && nodes[b].id == links[i].target && Matches(term, nodes[b]))))
  {
    NormalizeBlankIffWhitespace(raw);
    var term := Normalize(raw);
    var st := SearchStyles(raw, nodes, links);
    forall i | 0 <= i < |links|
      ensures st.links[i] == Emphasised <==>
        (exists a :: 0 <= a < |nodes| && nodes[a].id == links[i].source && Matches(term, nodes[a])) &&
        (exists b :: 0 <= b < |nodes| && nodes[b].id == links[i].target && Matches(term, nodes[b]))
    {
      MatchingIdsExact(term, nodes, links[i].source);
      MatchingIdsExact(term, nodes, links[i].target);
    }
  }

  /**
   * The link levels depend only on which nodes are drawn, not on the order
   * the node pass visits them in.
   */
  lemma LinkLevelsIgnoreNodeOrder(raw: string, nodes: seq<NodeDatum>, reordered: seq<NodeDatum>, links: seq<LinkDatum>)
    requires multiset(nodes) == multiset(reordered)
    ensures SearchStyles(raw, nodes, links).links == SearchStyles(raw, reordered, links).links
  {
    var term := Normalize(raw);
    forall n ensures n in nodes <==> n in reordered {
      assert n in nodes <==> n in multiset(nodes);
      assert n in reordered <==> n in multiset(reordered);
    }
    assert MatchingIds(term, nodes) == MatchingIds(term, reordered);
  }

  /**
   * Typing more narrows the search: when the new term contains the old one,
   * every node that matches the new term matched the old one, and every link
   * emphasised now was emphasised before.
   */
  lemma LongerTermNarrows(term: string, longer: string, nodes: seq<NodeDatum>, links: seq<LinkDatum>)
    requires Contains(longer, term)
    ensures MatchingIds(longer, nodes) <= MatchingIds(term, nodes)
    ensures forall l :: LinkLevel(MatchingIds(longer, nodes), l) == Emphasised ==>
      LinkLevel(MatchingIds(term, nodes), l) == Emphasised
  {
    forall n | n in nodes && Matches(longer, n) ensures Matches(term, n) {
      if Contains(LabelText(n), longer) {
        ContainsTransitive(LabelText(n), longer, term);
      } else if Contains(Lower(Or(n.nodeType, "")), longer) {
        ContainsTransitive(Lower(Or(n.nodeType, "")), longer, term);
      } else {
        ContainsTransitive(Lower(Or(n.category, "")), longer, term);
      }
    }
  }
}
