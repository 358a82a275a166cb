/** The JavaScript string primitives the application relies on: `trim`,
    `split` with a two-character separator, and `join`. */
module Strings {

  /** The characters `String.prototype.trim` removes: ECMAScript WhiteSpace
      (tab, vertical tab, form feed, space, no-break space, byte order mark and the
      Unicode "Zs" spaces) and LineTerminator (line feed, carriage return, line and
      paragraph separators). */
  predicate IsSpace(c: char) {
    var n := c as int;
    n == 0x09 || n == 0x0A || n == 0x0B || n == 0x0C || n == 0x0D || n == 0x20 ||
    n == 0xA0 || n == 0x1680 || (0x2000 <= n <= 0x200A) || n == 0x2028 ||
    n == 0x2029 || n == 0x202F || n == 0x205F || n == 0x3000 || n == 0xFEFF
  }

  /** A string with nothing but white space in it (the empty string included). */
  predicate Blank(s: string) {
    forall i :: 0 <= i < |s| ==> IsSpace(s[i])
  }

  /** `s` with its leading white space removed. */
  function TrimStart(s: string): (r: string)
    ensures |r| <= |s| && r == s[|s| - |r|..]
    ensures forall i :: 0 <= i < |s| - |r| ==> IsSpace(s[i])
    ensures r == [] || !IsSpace(r[0])
  {
    if s != [] && IsSpace(s[0]) then
      var r := TrimStart(s[1..]);
      assert forall i :: 1 <= i < |s| - |r| ==> s[i] == s[1..][i - 1];
      r
    else s
  }

  /** `s` with its trailing white space removed. */
  function TrimEnd(s: string): (r: string)
    ensures |r| <= |s| && r == s[..|r|]
    ensures forall i :: |r| <= i < |s| ==> IsSpace(s[i])
    ensures r == [] || !IsSpace(r[|r| - 1])
  {
    if s != [] && IsSpace(s[|s| - 1]) then
      var r := TrimEnd(s[..|s| - 1]);
      assert forall i :: |r| <= i < |s| - 1 ==> s[i] == s[..|s| - 1][i];
      r
    else s
  }

  /** `String.prototype.trim`. */
  function Trim(s: string): (r: string)
    ensures r == [] <==> Blank(s)
    ensures r != [] ==> !IsSpace(r[0]) && !IsSpace(r[|r| - 1])
  {
    var t := TrimStart(s);
    var r := TrimEnd(t);
    TrimEmptyWhenBlank(s, t, r);
    r
  }

  /** `r` stands at index `i` of `s`, with nothing but white space before and after. */
  predicate BetweenMargins(s: string, r: string, i: int) {
    0 <= i <= |s| - |r| && r == s[i..i + |r|] && Blank(s[..i]) && Blank(s[i + |r|..])
  }

  /** The trim of `s` is the part of `s` between white-space margins. */
  lemma TrimIsSlice(s: string)
    ensures exists i :: BetweenMargins(s, Trim(s), i)
  {
    var t := TrimStart(s);
    var r := TrimEnd(t);
    var i := |s| - |t|;
    assert r == s[i..i + |r|];
    assert Blank(s[..i]) by { forall k | 0 <= k < i ensures IsSpace(s[..i][k]) { assert s[..i][k] == s[k]; } }
    var tail := s[i + |r|..];
    assert Blank(tail) by {
      forall k | 0 <= k < |tail| ensures IsSpace(tail[k]) { assert tail[k] == t[|r| + k]; }
    }
    assert BetweenMargins(s, r, i);
    assert Trim(s) == r;
  }

  /** How the two halves of `Trim` fit together: nothing is left exactly when `s` is blank. */
  lemma TrimEmptyWhenBlank(s: string, t: string, r: string)
    requires |t| <= |s| && t == s[|s| - |t|..] && forall k :: 0 <= k < |s| - |t| ==> IsSpace(s[k])
    requires |r| <= |t| && r == t[..|r|] && forall k :: |r| <= k < |t| ==> IsSpace(t[k])
    requires r == [] || !IsSpace(r[0])
    ensures r == [] <==> Blank(s)
  {
    var i := |s| - |t|;
    if r != [] {
      assert s[i] == r[0];
    } else {
      forall k | i <= k < |s| ensures IsSpace(s[k]) {
        assert t[k - i] == s[k];
      }
    }
  }

  /** Trimming twice is trimming once. */
  lemma TrimIdempotent(s: string)
    ensures Trim(Trim(s)) == Trim(s)
  {
    var r := Trim(s);
    TrimOfTrimmed(r);
  }

  /** A string that neither starts nor ends with white space is its own trim. */
  lemma TrimOfTrimmed(r: string)
    requires r == [] || (!IsSpace(r[0]) && !IsSpace(r[|r| - 1]))
    ensures Trim(r) == r
  {
    assert TrimStart(r) == r;
    assert TrimEnd(r) == r;
  }

  /** Leading white space makes no difference to `TrimStart`. */
  lemma {:induction false} TrimStartAfterBlank(pad: string, s: string)
    requires Blank(pad)
    ensures TrimStart(pad + s) == TrimStart(s)
    decreases |pad|
  {
    if pad != [] {
      assert (pad + s)[0] == pad[0] && IsSpace(pad[0]);
      assert (pad + s)[1..] == pad[1..] + s;
      assert Blank(pad[1..]) by { forall i | 0 <= i < |pad[1..]| ensures IsSpace(pad[1..][i]) { assert pad[1..][i] == pad[i + 1]; } }
      TrimStartAfterBlank(pad[1..], s);
      assert TrimStart(pad + s) == TrimStart((pad + s)[1..]);
    } else {
      assert pad + s == s;
    }
  }

  /** Trailing white space makes no difference to `TrimEnd`. */
  lemma {:induction false} TrimEndBeforeBlank(s: string, pad: string)
    requires Blank(pad)
    ensures TrimEnd(s + pad) == TrimEnd(s)
    decreases |pad|
  {
    if pad != [] {
      var q := pad[..|pad| - 1];
      assert (s + pad)[|s + pad| - 1] == pad[|pad| - 1] && IsSpace(pad[|pad| - 1]);
      assert (s + pad)[..|s + pad| - 1] == s + q;
      assert Blank(q) by { forall i | 0 <= i < |q| ensures IsSpace(q[i]) { assert q[i] == pad[i]; } }
      TrimEndBeforeBlank(s, q);
      assert TrimEnd(s + pad) == TrimEnd((s + pad)[..|s + pad| - 1]);
    } else {
      assert s + pad == s;
    }
  }

  /** A string that starts with white space is blank exactly when the rest of it is. */
  lemma BlankAfterSpace(s: string)
    requires s != [] && IsSpace(s[0])
    ensures Blank(s) <==> Blank(s[1..])
  {
    if Blank(s[1..]) {
      forall i | 0 < i < |s| ensures IsSpace(s[i]) { assert s[i] == s[1..][i - 1]; }
    }
  }

  /** `TrimStart` stops inside `s` unless `s` is blank, so what follows is kept whole. */
  lemma {:induction false} TrimStartAppend(s: string, t: string)
    ensures TrimStart(s + t) == if Blank(s) then TrimStart(t) else TrimStart(s) + t
    decreases |s|
  {
    if s == [] {
      assert s + t == t;
    } else if IsSpace(s[0]) {
      assert (s + t)[0] == s[0];
      assert (s + t)[1..] == s[1..] + t;
      TrimStartAppend(s[1..], t);
      BlankAfterSpace(s);
    } else {
      assert (s + t)[0] == s[0];
    }
  }

  /** White space around a string makes no difference to its trim, whatever white
      space stands on either side. */
  lemma TrimPadded(s: string, pre: string, post: string)
    requires Blank(pre) && Blank(post)
    ensures Trim(pre + s + post) == Trim(s)
  {
    assert pre + s + post == pre + (s + post);
    TrimStartAfterBlank(pre, s + post);
    TrimStartAppend(s, post);
    if Blank(s) {
      assert TrimStart(post) == [] by { assert post + [] == post; TrimStartAfterBlank(post, []); }
    } else {
      TrimEndBeforeBlank(TrimStart(s), post);
    }
  }

  /** `s.includes(sub)`. */
  predicate Contains(s: string, sub: string) {
    exists i :: 0 <= i <= |s| - |sub| && OccursAt(s, sub, i)
  }

  /** `sub` occurs in `s` starting at index `i`. */
  predicate OccursAt(s: string, sub: string, i: int)
    requires 0 <= i <= |s| - |sub|
  {
    s[i..i + |sub|] == sub
  }

  /** True when `s` never has two line feeds in a row, that is, when it does not
      hold the paragraph separator "\n\n". */
  predicate NoBlankLine(s: string) {
    forall i :: 0 <= i < |s| - 1 ==> !(s[i] == '\n' && s[i + 1] == '\n')
  }

  /** `s.split("\n\n")`: the pieces between the separators, found from left to right
      without overlap; a string without a separator is one piece. */
  function SplitParagraphs(s: string): (r: seq<string>)
    ensures |r| >= 1
    decreases |s|
  {
    if |s| < 2 then [s]
    else if s[0] == '\n' && s[1] == '\n' then [""] + SplitParagraphs(s[2..])
    else
      var rest := SplitParagraphs(s[1..]);
      [[s[0]] + rest[0]] + rest[1..]
  }

  /** `parts.join(sep)`. */
  function Join(parts: seq<string>, sep: string): (r: string)
    ensures parts == [] ==> r == []
    ensures |parts| == 1 ==> r == parts[0]
  {
    if parts == [] then ""
    else if |parts| == 1 then parts[0]
    else parts[0] + sep + Join(parts[1..], sep)
  }

  /** A piece that ends a split: it holds no separator. */
  lemma {:induction false} SplitWithoutSeparator(p: string)
    requires NoBlankLine(p)
    ensures SplitParagraphs(p) == [p]
    decreases |p|
  {
    if |p| >= 2 {
      assert !(p[0] == '\n' && p[1] == '\n');
      assert NoBlankLine(p[1..]) by {
        forall i | 0 <= i < |p[1..]| - 1 ensures !(p[1..][i] == '\n' && p[1..][i + 1] == '\n') {
          assert p[1..][i] == p[i + 1] && p[1..][i + 1] == p[i + 2];
        }
      }
      SplitWithoutSeparator(p[1..]);
      assert [p[0]] + p[1..] == p;
    }
  }

  /** A piece followed by the separator is split off as exactly that piece, provided it
      holds no separator and does not end with a line feed (which would pair with the
      separator's first line feed). */
  lemma {:induction false} SplitAfterPiece(p: string, t: string)
    requires NoBlankLine(p)
    requires p == [] || p[|p| - 1] != '\n'
    ensures SplitParagraphs(p + "\n\n" + t) == [p] + SplitParagraphs(t)
    decreases |p|
  {
    var s := p + "\n\n" + t;
    if p == [] {
      assert s[2..] == t;
    } else {
      assert s[0] == p[0];
      assert s[1] == if |p| == 1 then '\n' else p[1];
      assert !(s[0] == '\n' && s[1] == '\n');
      var p' := p[1..];
      assert NoBlankLine(p') by {
        forall i | 0 <= i < |p'| - 1 ensures !(p'[i] == '\n' && p'[i + 1] == '\n') {
          assert p'[i] == p[i + 1] && p'[i + 1] == p[i + 2];
        }
      }
      assert s[1..] == p' + "\n\n" + t;
      SplitAfterPiece(p', t);
      assert [p[0]] + p' == p;
    }
  }

  /** Pieces that `SplitParagraphs` can recover after `Join(_, "\n\n")`. */
  predicate Separable(parts: seq<string>) {
    forall k :: 0 <= k < |parts| ==>
      NoBlankLine(parts[k]) && (k < |parts| - 1 && parts[k] != [] ==> parts[k][|parts[k]| - 1] != '\n')
  }

  /** Splitting undoes joining, for pieces that hold no separator and (but for the last)
      do not end with a line feed. */
  lemma {:induction false} SplitJoin(parts: seq<string>)
    requires parts != []
    requires Separable(parts)
    ensures SplitParagraphs(Join(parts, "\n\n")) == parts
  {
    if |parts| == 1 {
      SplitWithoutSeparator(parts[0]);
    } else {
      assert Separable(parts[1..]) by {
        forall k | 0 <= k < |parts[1..]|
          ensures NoBlankLine(parts[1..][k])
          ensures k < |parts[1..]| - 1 && parts[1..][k] != [] ==> parts[1..][k][|parts[1..][k]| - 1] != '\n'
        {
          assert parts[1..][k] == parts[k + 1];
        }
      }
      SplitJoin(parts[1..]);
      assert NoBlankLine(parts[0]);
      SplitAfterPiece(parts[0], Join(parts[1..], "\n\n"));
      assert [parts[0]] + parts[1..] == parts;
    }
  }

  /** Joining one more part adds the separator and the part, unless nothing came before. */
  lemma {:induction false} JoinAppend(parts: seq<string>, p: string, sep: string)
    ensures Join(parts + [p], sep) == if parts == [] then p else Join(parts, sep) + sep + p
  {
    if |parts| == 1 {
      assert parts + [p] == [parts[0], p];
    } else if |parts| > 1 {
      assert (parts + [p])[1..] == parts[1..] + [p];
      JoinAppend(parts[1..], p, sep);
    }
  }
}
