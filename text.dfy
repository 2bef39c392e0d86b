/** String operations used by the report pipeline: `split`, `trim`, concatenation. */
module Text {

  /** `String.prototype.split(sep)` for a one-character separator. */
  function Split(s: string, sep: char): (parts: seq<string>)
    ensures |parts| >= 1
    ensures forall i :: 0 <= i < |parts| ==> sep !in parts[i]
    decreases |s|
  {
    if s == [] then [[]]
    else
      var rest := Split(s[1..], sep);
      if s[0] == sep then [[]] + rest else [[s[0]] + rest[0]] + rest[1..]
  }

  /** `Array.prototype.join(sep)`. */
  function Join(parts: seq<string>, sep: char): string
    requires |parts| >= 1
  {
    if |parts| == 1 then parts[0] else parts[0] + [sep] + Join(parts[1..], sep)
  }

  /** Joining the pieces of a split gives back the original text. */
  lemma {:induction false} JoinSplit(s: string, sep: char)
    ensures Join(Split(s, sep), sep) == s
    decreases |s|
  {
    if s != [] {
      var rest := Split(s[1..], sep);
      JoinSplit(s[1..], sep);
      if s[0] == sep {
        assert Split(s, sep) == [[]] + rest;
        assert s == [s[0]] + s[1..];
      } else {
        var parts := Split(s, sep);
        assert parts == [[s[0]] + rest[0]] + rest[1..];
        if |rest| == 1 {
          assert s == [s[0]] + s[1..];
        } else {
          assert parts[1..] == rest[1..];
          assert Join(rest, sep) == rest[0] + [sep] + Join(rest[1..], sep);
          assert s == [s[0]] + s[1..];
        }
      }
    }
  }

  /** Splitting a join of separator-free pieces gives back the pieces. */
  lemma {:induction false} SplitJoin(parts: seq<string>, sep: char)
    requires |parts| >= 1
    requires forall i :: 0 <= i < |parts| ==> sep !in parts[i]
    ensures Split(Join(parts, sep), sep) == parts
    decreases |parts|, |parts[0]|
  {
    if |parts| == 1 {
      SplitNoSep(parts[0], sep);
    } else if parts[0] == [] {
      var tail := Join(parts[1..], sep);
      assert Join(parts, sep) == [sep] + tail;
      assert ([sep] + tail)[1..] == tail;
      SplitJoin(parts[1..], sep);
      assert parts == [[]] + parts[1..];
    } else {
      var c := parts[0][0];
      var shorter := [parts[0][1..]] + parts[1..];
      assert shorter[1..] == parts[1..];
      assert Join(shorter, sep) == parts[0][1..] + [sep] + Join(parts[1..], sep);
      assert Join(parts, sep) == [c] + Join(shorter, sep);
      assert ([c] + Join(shorter, sep))[1..] == Join(shorter, sep);
      assert forall i :: 1 <= i < |shorter| ==> shorter[i] == parts[i];
      assert sep !in shorter[0];
      SplitJoin(shorter, sep);
      assert parts[0] == [c] + parts[0][1..];
      assert parts == [[c] + shorter[0]] + shorter[1..];
    }
  }

  lemma {:induction false} SplitNoSep(s: string, sep: char)
    requires sep !in s
    ensures Split(s, sep) == [s]
    decreases |s|
  {
    if s != [] {
      SplitNoSep(s[1..], sep);
      assert s == [s[0]] + s[1..];
    }
  }

  /** The characters `String.prototype.trim` removes: ECMAScript WhiteSpace and LineTerminator. */
  predicate IsJsWhitespace(c: char)
  {
    c == '\t' || c == '\n' || c == '\U{000B}' || c == '\U{000C}' || c == '\r' || c == ' ' ||
    c == '\U{00A0}' || c == '\U{1680}' || ('\U{2000}' <= c <= '\U{200A}') ||
    c == '\U{2028}' || c == '\U{2029}' || c == '\U{202F}' || c == '\U{205F}' ||
    c == '\U{3000}' || c == '\U{FEFF}'
  }

  function TrimStart(s: string): (r: string)
    ensures |r| <= |s| && r == s[|s| - |r|..]
    ensures r != [] ==> !IsJsWhitespace(r[0])
    ensures forall i :: 0 <= i < |s| - |r| ==> IsJsWhitespace(s[i])
  {
    if s != [] && IsJsWhitespace(s[0]) then TrimStart(s[1..]) else s
  }

  function TrimEnd(s: string): (r: string)
    ensures |r| <= |s| && r == s[..|r|]
    ensures r != [] ==> !IsJsWhitespace(r[|r| - 1])
    ensures forall i :: |r| <= i < |s| ==> IsJsWhitespace(s[i])
  {
    if s != [] && IsJsWhitespace(s[|s| - 1]) then TrimEnd(s[..|s| - 1]) else s
  }

  /** `String.prototype.trim` */
  function Trim(s: string): string
  {
    TrimEnd(TrimStart(s))
  }

  /** `line.trim().length > 0` holds exactly when some character of the line is not white space. */
  lemma TrimNonEmpty(s: string)
    ensures |Trim(s)| > 0 <==> exists i :: 0 <= i < |s| && !IsJsWhitespace(s[i])
  {
    var a := TrimStart(s);
    if |Trim(s)| == 0 {
      assert a == [];
    } else {
      assert !IsJsWhitespace(a[0]) && a[0] == s[|s| - |a|];
    }
  }

  /** The concatenation of a list of strings. */
  function Concat(parts: seq<string>): string
  {
    if parts == [] then "" else parts[0] + Concat(parts[1..])
  }

  /** `text` contains `pieces` one after another, without overlap, in this order. */
  ghost predicate ContainsInOrder(text: string, pieces: seq<string>)
    decreases |pieces|
  {
    pieces == [] ||
    exists k :: PieceAt(text, pieces[0], k) && ContainsInOrder(text[k + |pieces[0]|..], pieces[1..])
  }

  /** `piece` occurs in `text` starting at position `k`. */
  predicate PieceAt(text: string, piece: string, k: int)
  {
    0 <= k <= |text| - |piece| && text[k..k + |piece|] == piece
  }

  /** Prefixing a text with some gap and a piece lets that piece head the ordered list. */
  lemma ContainsInOrderCons(gap: string, piece: string, rest: string, more: seq<string>)
    requires ContainsInOrder(rest, more)
    ensures ContainsInOrder(gap + piece + rest, [piece] + more)
  {
    var text := gap + piece + rest;
    var pieces := [piece] + more;
    var k := |gap|;
    assert pieces[0] == piece && pieces[1..] == more;
    assert text[k..k + |piece|] == piece;
    assert text[k + |piece|..] == rest;
    assert PieceAt(text, pieces[0], k) && ContainsInOrder(text[k + |pieces[0]|..], pieces[1..]);
  }

  /** `gaps[0] + pieces[0] + gaps[1] + pieces[1] + ... + tail`: a template with its substitutions. */
  function Interleave(gaps: seq<string>, pieces: seq<string>, tail: string): string
    requires |gaps| == |pieces|
    decreases |pieces|
  {
    if pieces == [] then tail else gaps[0] + pieces[0] + Interleave(gaps[1..], pieces[1..], tail)
  }

  /** A filled template contains its substitutions in order. */
  lemma {:induction false} InterleaveContains(gaps: seq<string>, pieces: seq<string>, tail: string)
    requires |gaps| == |pieces|
    ensures ContainsInOrder(Interleave(gaps, pieces, tail), pieces)
    decreases |pieces|
  {
    if pieces != [] {
      InterleaveContains(gaps[1..], pieces[1..], tail);
      ContainsInOrderCons(gaps[0], pieces[0], Interleave(gaps[1..], pieces[1..], tail), pieces[1..]);
      assert [pieces[0]] + pieces[1..] == pieces;
    }
  }

  /** A concatenation contains its parts in order. */
  lemma {:induction false} ConcatContains(parts: seq<string>)
    ensures ContainsInOrder(Concat(parts), parts)
  {
    if parts != [] {
      var head, rest := parts[0], Concat(parts[1..]);
      ConcatContains(parts[1..]);
      ContainsInOrderCons("", head, rest, parts[1..]);
      assert "" + head == head;
      assert Concat(parts) == head + rest;
      assert [head] + parts[1..] == parts;
    }
  }
}
