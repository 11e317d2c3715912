/**
 * The configuration errors of crates/sdk/src/connector/error.rs and the text their
 * `Display` implementations write.
 *
 * A file path is known by its `display()` text. Writing into a `String` never fails, so
 * the formatter's own error is not modelled and the `?` after each `write!` never fires.
 */
module ConfigErrors {
  import opened Wrappers
  import opened Text
  import ConnectorErrors

  type u32 = x: nat | x < 0x1_0000_0000
  type usize = x: nat | x < 0x1_0000_0000_0000_0000

  // ---------------------------------------------------------------------------------
  // `KeyOrIndex` (error.rs:88-103)

  datatype KeyOrIndex = Key(key: string) | Index(index: u32)

  /** `[` and `]` around the key quoted as `Debug` writes it, or around the decimal index. */
  function SegmentText(seg: KeyOrIndex): (s: string)
    ensures |s| >= 3 && s[0] == '[' && s[|s| - 1] == ']'
  {
    "[" + (match seg case Key(k) => Quoted(k) case Index(i) => NatToString(i)) + "]"
  }

  /** Reads a `Debug`-quoted string back. */
  function ParseQuoted(q: string): (r: Option<string>)
  {
    if |q| < 2 || q[0] != '"' || q[|q| - 1] != '"' then None else Unescape(q[1..|q| - 1])
  }

  lemma QuotedRoundTrip(k: string)
    ensures ParseQuoted(Quoted(k)) == Some(k)
  {
    var q := Quoted(k);
    assert q[1..|q| - 1] == Escape(k);
    UnescapeEscape(k);
  }

  /** Reads a decimal number below `bound` back. */
  function ParseDecimal(s: string, bound: nat): (r: Option<nat>)
    ensures r.Some? ==> r.value < bound
  {
    if s != [] && AllDigits(s) && DecimalValue(s) < bound then Some(DecimalValue(s)) else None
  }

  lemma DecimalParseRoundTrip(n: nat, bound: nat)
    requires n < bound
    ensures ParseDecimal(NatToString(n), bound) == Some(n)
  {
    DecimalRoundTrip(n);
  }

  /** What is between the brackets of a rendered segment. */
  function ParseSegmentInner(inner: string): (r: Option<KeyOrIndex>)
  {
    if inner != [] && inner[0] == '"' then
      match ParseQuoted(inner)
      case None => None
      case Some(k) => Some(Key(k))
    else
      match ParseDecimal(inner, 0x1_0000_0000)
      case None => None
      case Some(i) => Some(Index(i))
  }

  /** Reads one rendered segment back. */
  function ParseSegment(s: string): (r: Option<KeyOrIndex>)
  {
    if |s| < 2 || s[0] != '[' || s[|s| - 1] != ']' then None else ParseSegmentInner(s[1..|s| - 1])
  }

  lemma SegmentRoundTrip(seg: KeyOrIndex)
    ensures ParseSegment(SegmentText(seg)) == Some(seg)
  {
    var s := SegmentText(seg);
    match seg
    case Key(k) =>
      assert s[1..|s| - 1] == Quoted(k);
      QuotedRoundTrip(k);
    case Index(i) =>
      assert s[1..|s| - 1] == NatToString(i);
      DecimalParseRoundTrip(i, 0x1_0000_0000);
  }

  // ---------------------------------------------------------------------------------
  // `LocatedError` (error.rs:30-50)

  datatype LocatedError = LocatedError(filePath: string, line: usize, column: usize, message: string)

  /**
   * `path:line:column: message`, grouped from the right: the path and a colon first, the
   * line's digits next, then a colon and the column's digits, and a colon, a space and the
   * message last.
   */
  function LocatedText(e: LocatedError): (t: string)
    ensures |t| == |e.filePath| + |NatToString(e.line)| + |NatToString(e.column)| + |e.message| + 4
    ensures t[..|e.filePath| + 1] == e.filePath + ":"
    ensures t[|e.filePath| + 1..|e.filePath| + 1 + |NatToString(e.line)|] == NatToString(e.line)
    ensures t[|e.filePath| + 1 + |NatToString(e.line)|..|t| - |e.message| - 2] == ":" + NatToString(e.column)
    ensures t[|t| - |e.message| - 2..] == ": " + e.message
  {
    e.filePath + ":" + (NatToString(e.line) + ":" + (NatToString(e.column) + ":" + (" " + e.message)))
  }

  /** The text before and after the first `c`, if there is one. */
  function SplitAt(s: string, c: char): (r: Option<(string, string)>)
    ensures r.Some? ==> s == r.value.0 + [c] + r.value.1
  {
    var k := IndexOf(s, c);
    if k == |s| then None
    else
      assert s == s[..k] + [c] + s[k + 1..];
      Some((s[..k], s[k + 1..]))
  }

  lemma SplitAtFirst(p: string, c: char, rest: string)
    requires forall i :: 0 <= i < |p| ==> p[i] != c
    ensures SplitAt(p + [c] + rest, c) == Some((p, rest))
  {
    IndexOfAfter(p, c, rest);
  }

  /**
   * Reads a rendered located error back, splitting at the first three colons; so it undoes
   * `LocatedText` when the path holds no colon.
   */
  function ParseLocated(s: string): (r: Option<LocatedError>)
  {
    match SplitAt(s, ':')
    case None => None
    case Some((path, r1)) =>
      match SplitAt(r1, ':')
      case None => None
      case Some((line, r2)) =>
        match SplitAt(r2, ':')
        case None => None
        case Some((column, r3)) =>
          match (ParseDecimal(line, 0x1_0000_0000_0000_0000), ParseDecimal(column, 0x1_0000_0000_0000_0000))
          case (Some(l), Some(c)) =>
            if r3 != [] && r3[0] == ' ' then Some(LocatedError(path, l, c, r3[1..])) else None
          case _ => None
  }

  lemma LocatedRoundTrip(e: LocatedError)
    requires forall i :: 0 <= i < |e.filePath| ==> e.filePath[i] != ':'
    ensures ParseLocated(LocatedText(e)) == Some(e)
  {
    var line, column := NatToString(e.line), NatToString(e.column);
    var r3 := " " + e.message;
    var r2 := column + ":" + r3;
    var r1 := line + ":" + r2;
    SplitAtFirst(e.filePath, ':', r1);
    SplitAtFirst(line, ':', r2);
    SplitAtFirst(column, ':', r3);
    DecimalParseRoundTrip(e.line, 0x1_0000_0000_0000_0000);
    DecimalParseRoundTrip(e.column, 0x1_0000_0000_0000_0000);
    assert r3[1..] == e.message;
  }

  // ---------------------------------------------------------------------------------
  // `InvalidNode` and `InvalidNodes` (error.rs:52-86)

  datatype InvalidNode = InvalidNode(filePath: string, nodePath: seq<KeyOrIndex>, message: string)

  /**
   * Each segment of a node path, preceded by a dot: no text for no segments, otherwise a
   * text that opens with a dot and closes with a bracket, at least four characters a segment.
   */
  function PathText(path: seq<KeyOrIndex>): (t: string)
    ensures |t| >= 4 * |path|
    ensures path != [] ==> t[0] == '.' && t[|t| - 1] == ']'
    decreases |path|
  {
    if path == [] then "" else PathText(path[..|path| - 1]) + "." + SegmentText(path[|path| - 1])
  }

  /** `path, at .seg.seg: message`: the file path, `, at `, the path text, `: ` and the message. */
  function NodeText(n: InvalidNode): (t: string)
    ensures |t| == |n.filePath| + |PathText(n.nodePath)| + |n.message| + 7
    ensures t[..|n.filePath| + 5] == n.filePath + ", at "
    ensures t[|n.filePath| + 5..|t| - |n.message| - 2] == PathText(n.nodePath)
    ensures t[|t| - |n.message| - 2..] == ": " + n.message
  {
    var head, path, tail := n.filePath + ", at ", PathText(n.nodePath), ": " + n.message;
    Associates(head + path, ": ", n.message);
    ThreeParts(head, path, tail);
    n.filePath + ", at " + PathText(n.nodePath) + ": " + n.message
  }

  /**
   * The nodes' texts separated by `", "`: empty exactly for no nodes.
   */
  function NodesText(nodes: seq<InvalidNode>): (t: string)
    ensures t == [] <==> nodes == []
    decreases |nodes|
  {
    if |nodes| == 0 then ""
    else if |nodes| == 1 then NodeText(nodes[0])
    else NodesText(nodes[..|nodes| - 1]) + ", " + NodeText(nodes[|nodes| - 1])
  }

  /** `Display for InvalidNode` (error.rs:60-69): the path, then one write per segment. */
  method WriteNode(n: InvalidNode) returns (out: string)
    ensures out == NodeText(n)
  {
    out := n.filePath + ", at ";
    for i := 0 to |n.nodePath|
      invariant out == n.filePath + ", at " + PathText(n.nodePath[..i])
    {
      assert n.nodePath[..i + 1] == n.nodePath[..i] + [n.nodePath[i]];
      PathTextSnoc(n.nodePath[..i], n.nodePath[i]);
      Associates4(n.filePath + ", at ", PathText(n.nodePath[..i]), ".", SegmentText(n.nodePath[i]));
      out := out + "." + SegmentText(n.nodePath[i]);
    }
    assert n.nodePath[..|n.nodePath|] == n.nodePath;
    out := out + ": " + n.message;
  }

  /** `Display for InvalidNodes` (error.rs:75-86): the first node, then `", "` before each other. */
  method WriteNodes(nodes: seq<InvalidNode>) returns (out: string)
    ensures out == NodesText(nodes)
  {
    out := "";
    if |nodes| > 0 {
      out := WriteNode(nodes[0]);
      assert nodes[..1] == [nodes[0]];
      for i := 1 to |nodes|
        invariant out == NodesText(nodes[..i])
      {
        var next := WriteNode(nodes[i]);
        assert nodes[..i + 1][..i] == nodes[..i];
        out := out + ", " + next;
      }
      assert nodes[..|nodes|] == nodes;
    }
  }

  /** One more segment adds its dot and its text at the end. */
  lemma PathTextSnoc(p: seq<KeyOrIndex>, seg: KeyOrIndex)
    ensures PathText(p + [seg]) == PathText(p) + "." + SegmentText(seg)
  {
    assert (p + [seg])[..|p|] == p;
  }

  /** The path text of a concatenation is the concatenation of the path texts. */
  lemma {:induction false} PathTextAppend(p: seq<KeyOrIndex>, q: seq<KeyOrIndex>)
    ensures PathText(p + q) == PathText(p) + PathText(q)
    decreases |q|
  {
    if q == [] {
      assert p + q == p;
    } else {
      var q', last := q[..|q| - 1], q[|q| - 1];
      assert q == q' + [last];
      assert p + q == (p + q') + [last];
      PathTextSnoc(p + q', last);
      PathTextSnoc(q', last);
      PathTextAppend(p, q');
      Associates4(PathText(p), PathText(q'), ".", SegmentText(last));
    }
  }

  /** Each segment contributes exactly its dot and its own text. */
  lemma PathTextOfOne(seg: KeyOrIndex)
    ensures PathText([seg]) == "." + SegmentText(seg)
  {
    assert [seg][..0] == [];
  }

  /** A node with an empty path still writes `", at "`, directly followed by `": "`. */
  lemma EmptyPathNode(filePath: string, message: string)
    ensures NodeText(InvalidNode(filePath, [], message)) == filePath + ", at : " + message
  {
  }

  /** The text of a list of nodes opens with the first node's text. */
  lemma {:induction false} NodesTextStartsWithFirst(nodes: seq<InvalidNode>)
    requires nodes != []
    ensures NodeText(nodes[0]) <= NodesText(nodes)
    decreases |nodes|
  {
    if |nodes| > 1 {
      var init := nodes[..|nodes| - 1];
      NodesTextStartsWithFirst(init);
      assert init[0] == nodes[0];
    }
  }

  /** One more node adds a separator and its text at the end. */
  lemma NodesTextSnoc(nodes: seq<InvalidNode>, n: InvalidNode)
    requires nodes != []
    ensures NodesText(nodes + [n]) == NodesText(nodes) + ", " + NodeText(n)
  {
    assert (nodes + [n])[..|nodes|] == nodes;
  }

  /** One node renders as itself, and two non-empty lists join with a single separator. */
  lemma {:induction false} NodesTextAppend(a: seq<InvalidNode>, b: seq<InvalidNode>)
    requires a != [] && b != []
    ensures NodesText(a + b) == NodesText(a) + ", " + NodesText(b)
    decreases |b|
  {
    var b', last := b[..|b| - 1], b[|b| - 1];
    assert b == b' + [last];
    assert a + b == (a + b') + [last];
    NodesTextSnoc(a + b', last);
    if b' != [] {
      NodesTextSnoc(b', last);
      NodesTextAppend(a, b');
      Associates4(NodesText(a) + ", ", NodesText(b'), ", ", NodeText(last));
    }
  }

  // ---------------------------------------------------------------------------------
  // `ParseError` (error.rs:12-28)

  /** What `parse_configuration` fails with; an `io::Error` is known by its message. */
  datatype ParseError =
    | ParseError(located: LocatedError)
    | ValidateError(nodes: seq<InvalidNode>)
    | CouldNotFindConfiguration(path: string)
    | IoError(io: ConnectorErrors.BoxedError)
    | Other(err: ConnectorErrors.BoxedError)

  /** The prefix each kind's entry in the `#[error(..)]` attributes writes. */
  function KindPrefix(e: ParseError): string {
    match e
    case ParseError(_) => "error parsing configuration: "
    case ValidateError(_) => "error validating configuration: "
    case CouldNotFindConfiguration(_) => "could not find configuration file: "
    case IoError(_) | Other(_) => "error processing configuration: "
  }

  /** The `Display` thiserror derives for `ParseError`: the kind's prefix, then the payload. */
  function ParseErrorText(e: ParseError): (t: string)
    ensures KindPrefix(e) <= t
    ensures t[|KindPrefix(e)|..] ==
      match e
      case ParseError(l) => LocatedText(l)
      case ValidateError(ns) => NodesText(ns)
      case CouldNotFindConfiguration(p) => p
      case IoError(io) => io.display
      case Other(err) => err.display
  {
    match e
    case ParseError(l) => "error parsing configuration: " + LocatedText(l)
    case ValidateError(ns) => "error validating configuration: " + NodesText(ns)
    case CouldNotFindConfiguration(p) => "could not find configuration file: " + p
    case IoError(io) => "error processing configuration: " + io.display
    case Other(err) => "error processing configuration: " + err.display
  }

  lemma TextOpensWithKind(e: ParseError)
    ensures |ParseErrorText(e)| >= 8 && ParseErrorText(e)[..8] == KindPrefix(e)[..8]
  {
    var t, k := ParseErrorText(e), KindPrefix(e);
    assert t[..8] == t[..|k|][..8];
  }

  /** Two prefixes that agree on their first eight characters belong to the same kind. */
  lemma FirstEightNameTheKind(a: ParseError, b: ParseError)
    requires KindPrefix(a)[..8] == KindPrefix(b)[..8]
    ensures a.ParseError? <==> b.ParseError?
    ensures a.ValidateError? <==> b.ValidateError?
    ensures a.CouldNotFindConfiguration? <==> b.CouldNotFindConfiguration?
    ensures a.IoError? || a.Other? <==> b.IoError? || b.Other?
  {
    var pa, pb := KindPrefix(a), KindPrefix(b);
    assert pa[0] == pb[0] && pa[6] == pb[6] && pa[7] == pb[7];
  }

  /**
   * The text tells every kind apart except an I/O error from any other error with the same
   * message, which render alike.
   */
  lemma ParseErrorKindIsVisible(a: ParseError, b: ParseError)
    requires ParseErrorText(a) == ParseErrorText(b)
    ensures a.ParseError? <==> b.ParseError?
    ensures a.ValidateError? <==> b.ValidateError?
    ensures a.CouldNotFindConfiguration? <==> b.CouldNotFindConfiguration?
    ensures a.IoError? || a.Other? <==> b.IoError? || b.Other?
  {
    TextOpensWithKind(a);
    TextOpensWithKind(b);
    FirstEightNameTheKind(a, b);
  }

  lemma IoAndOtherRenderAlike(m: ConnectorErrors.BoxedError)
    ensures ParseErrorText(IoError(m)) == ParseErrorText(Other(m))
  {
  }
}
