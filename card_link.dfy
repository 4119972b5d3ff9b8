/**
 * Card links in markdown (src/client/markdown/cardlink/index.js): `oncard`
 * rewrites each parsed `[[...]]` node, reading the `!`, `/` and `//` markers
 * off the front of its text and splitting the rest into a card name and id.
 */
module CardLink {
  import opened Strings

  /** `s.indexOf(sep)` for a non-empty separator: the first position where it occurs, or -1. */
  function IndexOf(s: string, sep: string): (i: int)
    requires |sep| > 0
    ensures i == -1 ==> forall j :: !OccursAt(s, sep, j)
    ensures i != -1 ==> OccursAt(s, sep, i) && forall j :: 0 <= j < i ==> !OccursAt(s, sep, j)
    decreases |s|
  {
    if |s| < |sep| then -1
    else if s[..|sep|] == sep then 0
    else
      var r := IndexOf(s[1..], sep);
      ShiftOccurrence(s, sep);
      if r == -1 then -1 else r + 1
  }

  /** An occurrence after the first character is an occurrence in the tail, one position earlier. */
  lemma ShiftOccurrence(s: string, sep: string)
    requires |s| > 0
    ensures forall j :: 1 <= j ==> (OccursAt(s, sep, j) <==> OccursAt(s[1..], sep, j - 1))
  {
    forall j | 1 <= j
      ensures OccursAt(s, sep, j) <==> OccursAt(s[1..], sep, j - 1)
    {
      if 0 <= j - 1 <= |s[1..]| - |sep| {
        assert s[1..][j - 1..] == s[j..];
        assert s[j..j + |sep|] == s[j..][..|sep|];
        assert s[1..][j - 1..j - 1 + |sep|] == s[1..][j - 1..][..|sep|];
      }
    }
  }

  /** `s.split(sep)` for a non-empty separator: the pieces between successive occurrences, left to right. */
  function Split(s: string, sep: string): (parts: seq<string>)
    requires |sep| > 0
    ensures |parts| >= 1
    decreases |s|
  {
    var i := IndexOf(s, sep);
    if i == -1 then [s] else [s[..i]] + Split(s[i + |sep|..], sep)
  }

  /** `parts.join(sep)`. */
  function Join(parts: seq<string>, sep: string): string {
    if parts == [] then ""
    else if |parts| == 1 then parts[0]
    else parts[0] + sep + Join(parts[1..], sep)
  }

  /** Joining the pieces gives the string back. */
  lemma {:induction false} SplitJoin(s: string, sep: string)
    requires |sep| > 0
    ensures Join(Split(s, sep), sep) == s
    decreases |s|
  {
    var i := IndexOf(s, sep);
    if i != -1 {
      var rest := s[i + |sep|..];
      var tail := Split(rest, sep);
      SplitJoin(rest, sep);
      var parts := [s[..i]] + tail;
      assert Split(s, sep) == parts;
      assert parts[1..] == tail;
      JoinCons(s[..i], tail, sep);
      assert s == s[..i] + sep + rest;
    }
  }

  lemma JoinCons(head: string, tail: seq<string>, sep: string)
    requires |tail| >= 1
    ensures Join([head] + tail, sep) == head + sep + Join(tail, sep)
  {
    assert ([head] + tail)[1..] == tail;
  }

  /** No piece contains the separator. */
  lemma {:induction false} SplitPiecesClean(s: string, sep: string)
    requires |sep| > 0
    ensures forall k :: 0 <= k < |Split(s, sep)| ==> !Contains(Split(s, sep)[k], sep)
    decreases |s|
  {
    var i := IndexOf(s, sep);
    if i != -1 {
      var rest := s[i + |sep|..];
      SplitPiecesClean(rest, sep);
      NoOccurrenceInPrefix(s, sep, i);
      var parts := Split(s, sep);
      assert parts == [s[..i]] + Split(rest, sep);
    } else {
      NoOccurrenceInPrefix(s, sep, |s|);
      assert s[..|s|] == s;
    }
  }

  /** Before the first occurrence, the separator does not occur. */
  lemma NoOccurrenceInPrefix(s: string, sep: string, i: int)
    requires |sep| > 0 && 0 <= i <= |s|
    requires forall j :: 0 <= j < i ==> !OccursAt(s, sep, j)
    ensures !Contains(s[..i], sep)
  {
    forall j | OccursAt(s[..i], sep, j)
      ensures false
    {
      assert s[..i][j..j + |sep|] == s[j..j + |sep|];
      assert OccursAt(s, sep, j);
    }
  }

  /** A string splits into two or more pieces exactly when it contains the separator; the first piece is a prefix. */
  lemma SplitHead(s: string, sep: string)
    requires |sep| > 0
    ensures |Split(s, sep)| >= 2 <==> Contains(s, sep)
    ensures Split(s, sep)[0] <= s
    ensures Contains(s, sep) ==> Split(s, sep)[0] == s[..IndexOf(s, sep)]
  {
    var i := IndexOf(s, sep);
    if Contains(s, sep) {
      var j :| 0 <= j <= |s| - |sep| && OccursAt(s, sep, j);
    }
  }

  /** The escaped separator `\|`. */
  const EscapedPipe := "\\|"

  datatype NameId = NameId(name: string, id: string)

  /**
   * `[name, id] = value.split('\\|')`, falling back to `value.split('|')`
   * when that gives no id, and to `id = name` when neither does.
   */
  function NameAndId(value: string): NameId {
    var escaped := Split(value, EscapedPipe);
    if |escaped| >= 2 then NameId(escaped[0], escaped[1])
    else
      var plain := Split(value, "|");
      if |plain| >= 2 then NameId(plain[0], plain[1]) else NameId(plain[0], plain[0])
  }

  /**
   * The split prefers `\|`: when it occurs, the name is the text before its
   * first occurrence and the id the text up to the next one; only without it
   * does a plain `|` split; with neither, name and id are the whole text.
   */
  lemma {:induction false} NameAndIdSplit(value: string)
    ensures var r := NameAndId(value);
      && (Contains(value, EscapedPipe) ==>
            && r.name == value[..IndexOf(value, EscapedPipe)]
            && !Contains(r.name, EscapedPipe) && !Contains(r.id, EscapedPipe)
            && r.name + EscapedPipe + r.id <= value
            && r.id == UpToSeparator(value[|r.name| + |EscapedPipe|..], EscapedPipe))
      && (!Contains(value, EscapedPipe) && Contains(value, "|") ==>
            && r.name == value[..IndexOf(value, "|")]
            && !Contains(r.name, "|") && !Contains(r.id, "|")
            && r.name + "|" + r.id <= value
            && r.id == UpToSeparator(value[|r.name| + 1..], "|"))
      && (!Contains(value, EscapedPipe) && !Contains(value, "|") ==> r.name == value && r.id == value)
  {
    SplitHead(value, EscapedPipe);
    SplitHead(value, "|");
    SplitPiecesClean(value, EscapedPipe);
    SplitPiecesClean(value, "|");
    if Contains(value, EscapedPipe) {
      TwoPieces(value, EscapedPipe);
      SecondPiece(value, EscapedPipe);
    } else if Contains(value, "|") {
      TwoPieces(value, "|");
      SecondPiece(value, "|");
    } else {
      assert Split(value, "|") == [value];
    }
  }

  /** The text of `s` before the first occurrence of `sep`, or all of `s` when it has none. */
  function UpToSeparator(s: string, sep: string): string
    requires |sep| > 0
  {
    if Contains(s, sep) then s[..IndexOf(s, sep)] else s
  }

  /** The second piece is the text after the first separator, up to the next one or to the end. */
  lemma SecondPiece(s: string, sep: string)
    requires |sep| > 0 && Contains(s, sep)
    ensures |Split(s, sep)| >= 2
    ensures Split(s, sep)[1] == UpToSeparator(s[IndexOf(s, sep) + |sep|..], sep)
  {
    SplitHead(s, sep);
    var rest := s[IndexOf(s, sep) + |sep|..];
    SplitHead(rest, sep);
    if !Contains(rest, sep) {
      assert IndexOf(rest, sep) == -1;
    }
  }

  /** When the separator occurs, the first two pieces with the separator between them start the string. */
  lemma TwoPieces(s: string, sep: string)
    requires |sep| > 0 && Contains(s, sep)
    ensures |Split(s, sep)| >= 2
    ensures Split(s, sep)[0] + sep + Split(s, sep)[1] <= s
  {
    SplitHead(s, sep);
    var i := IndexOf(s, sep);
    var rest := s[i + |sep|..];
    SplitHead(rest, sep);
    assert s == s[..i] + sep + rest;
  }

  /** `node.data.hProperties`. */
  datatype HProperties = HProperties(name: string, id: string, dfc: bool, inParagraph: bool, showBackImage: bool)

  /** `node.type`: the syntax makes `cardlink` nodes, which become `cardimage` nodes. */
  datatype NodeType = CardLinkType | CardImageType

  function TypeName(t: NodeType): string {
    match t
    case CardLinkType => "cardlink"
    case CardImageType => "cardimage"
  }

  /** `parent.type === 'paragraph' || parent.inParagraph`. */
  predicate InsideParagraph(parent: Parent) {
    parent.parentType == "paragraph" || parent.inParagraph
  }

  /** The fields of a card-link node; a flag that was never set reads `false`. */
  datatype NodeState = NodeState(value: string, nodeType: NodeType, dfc: bool, showBackImage: bool,
                                 inParagraph: bool, name: string, id: string,
                                 hName: string, hProperties: HProperties)

  /** The fields of the parent node `oncard` reads. */
  datatype Parent = Parent(parentType: string, inParagraph: bool)

  /** `node.value[0] === c`. */
  predicate StartsWith(value: string, c: char) {
    |value| > 0 && value[0] == c
  }

  /** A leading `!`: the node becomes an image. */
  function TakeBang(n: NodeState): (r: NodeState)
    ensures DropsMarker(n.value, r.value)
    ensures r.value == if StartsWith(n.value, '!') then n.value[1..] else n.value
    ensures StartsWith(n.value, '!') ==> r.nodeType == CardImageType
    ensures r.dfc == n.dfc && r.showBackImage == n.showBackImage && r.inParagraph == n.inParagraph
  {
    if StartsWith(n.value, '!') then n.(value := n.value[1..], nodeType := CardImageType) else n
  }

  /** A `/` next: the card is double-faced. */
  function TakeDfc(n: NodeState): (r: NodeState)
    ensures DropsMarker(n.value, r.value)
    ensures r.value == if StartsWith(n.value, '/') then n.value[1..] else n.value
    ensures r.nodeType == n.nodeType && r.showBackImage == n.showBackImage && r.inParagraph == n.inParagraph
  {
    if StartsWith(n.value, '/') then n.(value := n.value[1..], dfc := true) else n
  }

  /** A second `/`: the back face is shown. */
  function TakeBack(n: NodeState): (r: NodeState)
    ensures DropsMarker(n.value, r.value)
    ensures r.value == if StartsWith(n.value, '/') then n.value[1..] else n.value
    ensures r.nodeType == n.nodeType && r.dfc == n.dfc && r.inParagraph == n.inParagraph
  {
    if StartsWith(n.value, '/') then n.(value := n.value[1..], showBackImage := true) else n
  }

  /** A `!` after the slashes makes an image too, unless the node already is one. */
  function TakeLateBang(n: NodeState): (r: NodeState)
    ensures DropsMarker(n.value, r.value)
    ensures r.value == if StartsWith(n.value, '!') && n.nodeType != CardImageType then n.value[1..] else n.value
    ensures r.dfc == n.dfc && r.showBackImage == n.showBackImage && r.inParagraph == n.inParagraph
  {
    if StartsWith(n.value, '!') && n.nodeType != CardImageType
    then n.(value := n.value[1..], nodeType := CardImageType)
    else n
  }

  /** An image under a paragraph is marked as inside one. */
  function MarkParagraph(n: NodeState, parent: Parent): (r: NodeState)
    ensures r.value == n.value && r.nodeType == n.nodeType && r.dfc == n.dfc && r.showBackImage == n.showBackImage
  {
    if n.nodeType == CardImageType && InsideParagraph(parent) then n.(inParagraph := true) else n
  }

  /** The first part of `oncard`: the markers read off the front of the text, and inParagraph. */
  function ReadMarkers(n: NodeState, parent: Parent): NodeState {
    MarkParagraph(TakeLateBang(TakeBack(TakeDfc(TakeBang(n)))), parent)
  }

  /** The second part: name and id split off, and the rendering data set from the node. */
  function Render(m: NodeState): (r: NodeState)
    ensures r.value == m.value && r.nodeType == m.nodeType && r.dfc == m.dfc
    ensures r.showBackImage == m.showBackImage && r.inParagraph == m.inParagraph
    ensures NameId(r.name, r.id) == NameAndId(m.value)
    ensures r.hName == TypeName(r.nodeType)
    ensures r.hProperties == HProperties(r.name, r.id, r.dfc, r.inParagraph, r.showBackImage)
  {
    var split := NameAndId(m.value);
    m.(name := split.name, id := split.id, hName := TypeName(m.nodeType),
       hProperties := HProperties(split.name, split.id, m.dfc, m.inParagraph, m.showBackImage))
  }

  /** `oncard` as a function of the node's fields and its parent. */
  function OnCardSpec(n: NodeState, parent: Parent): NodeState {
    Render(ReadMarkers(n, parent))
  }

  /** A leading `!` makes an image, whether or not a `/` follows, and `/!` does too. */
  lemma ImageMarkers(n: NodeState, parent: Parent, x: string)
    ensures ReadMarkers(n.(value := "!" + x), parent).nodeType == CardImageType
    ensures ReadMarkers(n.(value := "/!" + x), parent).nodeType == CardImageType
    ensures ReadMarkers(n.(value := "!/" + x), parent).nodeType == CardImageType
  {
    assert ("!" + x)[1..] == x && ("/!" + x)[1..] == "!" + x && ("!/" + x)[1..] == "/" + x;
  }

  /** On a `cardlink` node, `!/x` and `/!x` give the same node when x does not start with another `/`. */
  lemma MarkerOrderIrrelevant(n: NodeState, parent: Parent, x: string)
    requires n.nodeType == CardLinkType && !StartsWith(x, '/')
    ensures ReadMarkers(n.(value := "!/" + x), parent) == ReadMarkers(n.(value := "/!" + x), parent)
    ensures ReadMarkers(n.(value := "!/" + x), parent).value == x
    ensures ReadMarkers(n.(value := "!/" + x), parent).dfc
  {
    assert ("!/" + x)[1..] == "/" + x && ("/" + x)[1..] == x;
    assert ("/!" + x)[1..] == "!" + x && ("!" + x)[1..] == x;
  }

  /** `//x` (x not starting with `!`) sets both dfc and showBackImage and leaves x. */
  lemma DoubleSlash(n: NodeState, parent: Parent, x: string)
    requires !StartsWith(x, '!')
    ensures var r := ReadMarkers(n.(value := "//" + x), parent);
      r.dfc && r.showBackImage && r.value == x && r.nodeType == n.nodeType
  {
    assert ("//" + x)[1..] == "/" + x && ("/" + x)[1..] == x;
  }

  /** The markers read: at most three leading `!` and `/` characters come off the text, and nothing else changes in it. */
  lemma MarkersStripPrefix(n: NodeState, parent: Parent)
    ensures var r := ReadMarkers(n, parent);
      && |r.value| <= |n.value| <= |r.value| + 3
      && r.value == n.value[|n.value| - |r.value|..]
      && forall k :: 0 <= k < |n.value| - |r.value| ==> n.value[k] == '!' || n.value[k] == '/'
  {
    var n1 := TakeBang(n);
    var n2 := TakeDfc(n1);
    var n3 := TakeBack(n2);
    var n4 := TakeLateBang(n3);
    StripChain(n.value, n1.value, n2.value, n3.value, n4.value);
    if StartsWith(n.value, '!') {
      assert n3.nodeType == CardImageType;
      assert n4.value == n3.value;
    } else {
      assert n1.value == n.value;
    }
    assert ReadMarkers(n, parent).value == n4.value;
  }

  /** Four marker steps in a row strip leading markers only. */
  lemma StripChain(v0: string, v1: string, v2: string, v3: string, v4: string)
    requires DropsMarker(v0, v1) && DropsMarker(v1, v2) && DropsMarker(v2, v3) && DropsMarker(v3, v4)
    ensures Stripped(v0, v4)
  {
    assert v0[0..] == v0;
    StripMore(v0, v0, v1);
    StripMore(v0, v1, v2);
    StripMore(v0, v2, v3);
    StripMore(v0, v3, v4);
  }

  /** `b` is `a` with some leading `!` and `/` characters removed. */
  predicate Stripped(a: string, b: string) {
    && |b| <= |a| && b == a[|a| - |b|..]
    && forall k :: 0 <= k < |a| - |b| ==> a[k] == '!' || a[k] == '/'
  }

  /** One marker step keeps the text or drops its first character, a `!` or a `/`. */
  predicate DropsMarker(a: string, b: string) {
    b == a || (|a| > 0 && (a[0] == '!' || a[0] == '/') && b == a[1..])
  }

  lemma StripMore(a: string, b: string, c: string)
    requires Stripped(a, b) && DropsMarker(b, c)
    ensures Stripped(a, c)
  {
    if c != b {
      var d := |a| - |b|;
      assert a[d] == b[0];
      assert c == a[d + 1..];
    }
  }

  /** Flags only ever turn on, the type only ever becomes `cardimage`, and inParagraph is set exactly for images under a paragraph. */
  lemma MarkersFlags(n: NodeState, parent: Parent)
    ensures var r := ReadMarkers(n, parent);
      && (n.dfc ==> r.dfc) && (n.showBackImage ==> r.showBackImage)
      && (r.nodeType == n.nodeType || r.nodeType == CardImageType)
      && (r.inParagraph <==> n.inParagraph || (r.nodeType == CardImageType && InsideParagraph(parent)))
  {
  }

  /** A text without leading markers keeps its type and flags. */
  lemma PlainText(n: NodeState, parent: Parent)
    requires !StartsWith(n.value, '!') && !StartsWith(n.value, '/')
    ensures var r := ReadMarkers(n, parent);
      r.value == n.value && r.nodeType == n.nodeType && r.dfc == n.dfc && r.showBackImage == n.showBackImage
  {
  }

  /** A card-link node of the markdown tree, rewritten in place. */
  class CardLinkNode {
    var value: string
    var nodeType: NodeType
    var dfc: bool
    var showBackImage: bool
    var inParagraph: bool
    var name: string
    var id: string
    var hName: string
    var hProperties: HProperties

    function Snapshot(): NodeState
      reads this
    {
      NodeState(value, nodeType, dfc, showBackImage, inParagraph, name, id, hName, hProperties)
    }

    /** A node as the card-link syntax produces it: its text, type `cardlink`, no flags set. */
    constructor (value: string)
      ensures Snapshot() == NodeState(value, CardLinkType, false, false, false, "", "", "", HProperties("", "", false, false, false))
    {
      this.value := value;
      nodeType := CardLinkType;
      dfc := false;
      showBackImage := false;
      inParagraph := false;
      name := "";
      id := "";
      hName := "";
      hProperties := HProperties("", "", false, false, false);
    }

    /** The markers, read off the front of the text one at a time. */
    method ReadMarkersInPlace(parent: Parent)
      modifies this
      ensures Snapshot() == ReadMarkers(old(Snapshot()), parent)
    {
      if StartsWith(value, '!') {
        value := value[1..];
        nodeType := CardImageType;
      }
      assert Snapshot() == TakeBang(old(Snapshot()));
      if StartsWith(value, '/') {
        value := value[1..];
        dfc := true;
      }
      assert Snapshot() == TakeDfc(TakeBang(old(Snapshot())));
      if StartsWith(value, '/') {
        value := value[1..];
        showBackImage := true;
      }
      assert Snapshot() == TakeBack(TakeDfc(TakeBang(old(Snapshot()))));
      if StartsWith(value, '!') && nodeType != CardImageType {
        value := value[1..];
        nodeType := CardImageType;
      }
      if nodeType == CardImageType && InsideParagraph(parent) {
        inParagraph := true;
      }
    }

    /** The name and id split off the remaining text, and the rendering data set. */
    method RenderInPlace()
      modifies this
      ensures Snapshot() == Render(old(Snapshot()))
    {
      var escaped := Split(value, EscapedPipe);
      if |escaped| >= 2 {
        name, id := escaped[0], escaped[1];
      } else {
        var plain := Split(value, "|");
        name := plain[0];
        if |plain| >= 2 {
          id := plain[1];
        } else {
          id := name;
        }
      }
      hName := TypeName(nodeType);
      hProperties := HProperties(name, id, dfc, inParagraph, showBackImage);
    }

    /** oncard. */
    method OnCard(parent: Parent)
      modifies this
      ensures Snapshot() == OnCardSpec(old(Snapshot()), parent)
    {
      ReadMarkersInPlace(parent);
      RenderInPlace();
    }
  }
}
