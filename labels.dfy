/**
 * Node and edge labels of the graph view (graph.js): how a name is wrapped
 * onto one or two lines, and how tall a node is drawn.
 */
module Labels {
  import opened Values

  /** Names up to this many characters are shown as they are. */
  const PassThroughLength := 16
  /** Longer names are cut to this many characters before wrapping. */
  const MaxLabelChars := 32
  /** How far below the midpoint the search for a break point goes. */
  const BreakWindow := 8
  /** Names longer than this get the taller node. */
  const TallNameLength := 12
  const TallHeight := 40
  const ShortHeight := 25

  /** The characters a label may be broken at. */
  predicate IsSeparator(c: char)
    ensures IsSeparator(c) ==> c != '\n'
  {
    c == ' ' || c == '-' || c == '_'
  }

  /** The name as wrapping sees it: its first `MaxLabelChars` characters. */
  function Truncated(name: string): (p: string)
    ensures p <= name
    ensures |p| == if |name| > MaxLabelChars then MaxLabelChars else |name|
  {
    if |name| > MaxLabelChars then name[..MaxLabelChars] else name
  }

  /** `Math.max(0, midPoint - 8)`: the lowest index the break search looks at. */
  function WindowStart(mid: int): (lo: nat)
    ensures lo <= mid || mid < 0
    ensures mid >= BreakWindow ==> lo == mid - BreakWindow
  {
    if mid - BreakWindow < 0 then 0 else mid - BreakWindow
  }

  /** The largest index in `[lo, hi)` holding a separator, if there is one. */
  function LastSeparator(p: string, lo: nat, hi: nat): (r: Option<nat>)
    requires hi <= |p|
    ensures r.Some? ==> lo <= r.value < hi && IsSeparator(p[r.value])
    ensures r.Some? ==> forall j :: r.value < j < hi ==> !IsSeparator(p[j])
    ensures r.None? ==> forall j :: lo <= j < hi ==> !IsSeparator(p[j])
    decreases hi
  {
    if hi <= lo then None
    else if IsSeparator(p[hi - 1]) then Some(hi - 1)
    else LastSeparator(p, lo, hi - 1)
  }

  /** Where a long processed name is broken: a separator replaced, or a newline inserted. */
  datatype Break = ReplaceAt(at: nat) | InsertAt(at: nat)

  /**
   * The break point of a processed name of 17 to 32 characters: the last
   * separator at an index in `[mid - 8, mid]`, otherwise an insertion at `mid`,
   * where `mid` is half the length rounded down.
   */
  function BreakOf(p: string): (b: Break)
    requires PassThroughLength < |p| <= MaxLabelChars
    ensures var mid := |p| / 2;
      mid - BreakWindow <= b.at <= mid < |p| && 0 <= mid - BreakWindow
    ensures var mid := |p| / 2;
      b.ReplaceAt? ==> IsSeparator(p[b.at]) && forall j :: b.at < j <= mid ==> !IsSeparator(p[j])
    ensures var mid := |p| / 2;
      b.InsertAt? ==> b.at == mid && forall j :: mid - BreakWindow <= j <= mid ==> !IsSeparator(p[j])
  {
    var mid := |p| / 2;
    match LastSeparator(p, WindowStart(mid), mid + 1)
    case Some(i) => ReplaceAt(i)
    case None => InsertAt(mid)
  }

  /** The processed name with a newline put at its break point. */
  function Wrap(p: string, b: Break): (r: string)
    requires b.ReplaceAt? ==> b.at < |p|
    requires b.InsertAt? ==> b.at <= |p|
    ensures b.at < |r| && r[b.at] == '\n' && r[..b.at] == p[..b.at]
    ensures |r| == if b.ReplaceAt? then |p| else |p| + 1
  {
    match b
    case ReplaceAt(i) => p[..i] + "\n" + p[i + 1..]
    case InsertAt(i) => p[..i] + "\n" + p[i..]
  }

  /** The label shown for a node or edge name (`formatLabel`). */
  function Label(name: Option<string>): (r: string)
    ensures Falsy(name) ==> r == ""
    ensures |r| <= MaxLabelChars + 1
    ensures |Or(name, "")| > PassThroughLength ==> '\n' in r
  {
    var s := Or(name, "");
    if |s| <= PassThroughLength then s
    else
      var p := Truncated(s);
      Wrap(p, BreakOf(p))
  }

  /**
   * `formatLabel` as the source writes it: a descending scan from the
   * midpoint that returns at the first separator it meets.
   */
  method FormatLabel(name: Option<string>) returns (formatted: string)
    ensures formatted == Label(name)
  {
    if Falsy(name) || |name.value| <= PassThroughLength {
      formatted := Or(name, "");
      return;
    }
    var s := name.value;
    var processed := if |s| > MaxLabelChars then s[..MaxLabelChars] else s;
    var mid := |processed| / 2;
    var lo := if mid - BreakWindow < 0 then 0 else mid - BreakWindow;
    var i := mid;
    while i >= lo
      invariant lo - 1 <= i <= mid
      invariant forall j :: i < j <= mid ==> !IsSeparator(processed[j])
      decreases i - lo + 1
    {
      if IsSeparator(processed[i]) {
        formatted := processed[..i] + "\n" + processed[i + 1..];
        return;
      }
      i := i - 1;
    }
    formatted := processed[..mid] + "\n" + processed[mid..];
  }

  /** A falsy name gets the empty label, and a name of at most 16 characters is shown unchanged. */
  lemma LabelPassThrough(name: Option<string>)
    ensures Falsy(name) ==> Label(name) == ""
    ensures !Falsy(name) && |name.value| <= PassThroughLength ==> Label(name) == name.value
  {
  }

  /**
   * Breaking at a separator puts one newline in its place and keeps every
   * other character where it was: the length is unchanged, and putting the
   * separator back restores the processed name.
   */
  lemma ReplaceRoundTrip(p: string, i: nat)
    requires i < |p|
    ensures var w := Wrap(p, ReplaceAt(i));
      |w| == |p| && w[i] == '\n' && w[..i] + [p[i]] + w[i + 1..] == p
    ensures multiset(Wrap(p, ReplaceAt(i))) == multiset(p) - multiset{p[i]} + multiset{'\n'}
  {
    var w := Wrap(p, ReplaceAt(i));
    assert w[..i] == p[..i] && w[i + 1..] == p[i + 1..];
    assert p == p[..i] + [p[i]] + p[i + 1..];
    assert multiset(p) == multiset(p[..i]) + multiset{p[i]} + multiset(p[i + 1..]);
    assert multiset(w) == multiset(p[..i]) + multiset{'\n'} + multiset(p[i + 1..]);
  }

  /**
   * Breaking without a separator inserts one newline: the label is one
   * character longer, and deleting the newline restores the processed name.
   */
  lemma InsertRoundTrip(p: string, i: nat)
    requires i <= |p|
    ensures var w := Wrap(p, InsertAt(i));
      |w| == |p| + 1 && w[i] == '\n' && w[..i] + w[i + 1..] == p
    ensures multiset(Wrap(p, InsertAt(i))) == multiset(p) + multiset{'\n'}
  {
    var w := Wrap(p, InsertAt(i));
    assert w[..i] == p[..i] && w[i + 1..] == p[i..];
    assert p == p[..i] + p[i..];
    assert multiset(p) == multiset(p[..i]) + multiset(p[i..]);
    assert multiset(w) == multiset(p[..i]) + multiset{'\n'} + multiset(p[i..]);
  }

  /**
   * A name longer than 16 characters is wrapped exactly once, at an index `k`
   * in the window `[mid - 8, mid]` of its processed form: either the
   * separator at `k` becomes the newline (same length; putting the separator
   * back gives the processed name), or, when the window holds no separator,
   * a newline is inserted at `mid` (one longer; deleting it gives the
   * processed name). The label is never longer than 33 characters.
   */
  lemma LabelWrapsOnce(name: Option<string>)
    requires !Falsy(name) && |name.value| > PassThroughLength
    ensures var p := Truncated(name.value); var mid := |p| / 2; var w := Label(name);
      exists k :: 0 <= mid - BreakWindow <= k <= mid < |p| && k < |w| && w[k] == '\n' &&
        ((IsSeparator(p[k]) && |w| == |p| && w[..k] + [p[k]] + w[k + 1..] == p) ||
         (k == mid && (forall j :: mid - BreakWindow <= j <= mid ==> !IsSeparator(p[j])) &&
          |w| == |p| + 1 && w[..k] + w[k + 1..] == p))
    ensures |Label(name)| <= MaxLabelChars + 1
  {
    var p := Truncated(name.value);
    var b := BreakOf(p);
    if b.ReplaceAt? {
      ReplaceRoundTrip(p, b.at);
    } else {
      InsertRoundTrip(p, b.at);
    }
  }

  /**
   * Only the first 32 characters of a name reach its label: apart from one
   * added newline, the label's characters are drawn from that prefix.
   */
  lemma LabelDrawsFromPrefix(name: Option<string>)
    ensures var s := Or(name, "");
      multiset(Label(name)) <= multiset(Truncated(s)) + multiset{'\n'}
  {
    var s := Or(name, "");
    if |s| > PassThroughLength {
      var p := Truncated(s);
      var b := BreakOf(p);
      if b.ReplaceAt? {
        ReplaceRoundTrip(p, b.at);
      } else {
        InsertRoundTrip(p, b.at);
      }
    }
  }

  /** The node `height` style: 40 for a name longer than 12 characters, otherwise 25; a missing name counts as empty. */
  function NodeHeight(name: Option<string>): (h: int)
    ensures h == TallHeight || h == ShortHeight
    ensures h == TallHeight <==> |Or(name, "")| > TallNameLength
  {
    if |Or(name, "")| > TallNameLength then TallHeight else ShortHeight
  }

  /**
   * Height and label agree: a short node shows its name unchanged on one
   * line, and every name that gets wrapped sits on a tall node.
   */
  lemma HeightFitsLabel(name: Option<string>)
    ensures NodeHeight(name) == ShortHeight ==> Label(name) == Or(name, "")
    ensures |Or(name, "")| > PassThroughLength ==> NodeHeight(name) == TallHeight
  {
  }
}
