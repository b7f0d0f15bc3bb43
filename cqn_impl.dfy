/** service/impl/GenericCqnService: the older query helpers. Its
    generateLabelFromPath splits the processed last segment into words at
    white-space runs and joins the capitalised words with single spaces;
    its isFirstCall is the common one (CqnCommon.IsFirstCall). */
module CqnImpl {
  import opened JavaText
  import CqnCommon

  /** The length of the leading run of characters outside \s. */
  function WordLen(s: string): (n: nat)
    ensures n <= |s|
    ensures forall i :: 0 <= i < n ==> !IsRegexSpace(s[i])
    ensures n < |s| ==> IsRegexSpace(s[n])
  {
    if s == [] || IsRegexSpace(s[0]) then 0 else 1 + WordLen(s[1..])
  }

  /** The non-empty strings of `split("\\s+")`, in order.  Split's empty
      strings (a leading one when the text starts with white space) are
      skipped by the loop that reads them, so only these matter. */
  function Words(s: string): (r: seq<string>)
    ensures forall k :: 0 <= k < |r| ==> r[k] != []
    ensures forall k, i :: 0 <= k < |r| && 0 <= i < |r[k]| ==> r[k][i] in s && !IsRegexSpace(r[k][i])
    decreases |s|
  {
    if s == [] then []
    else if IsRegexSpace(s[0]) then Words(s[1..])
    else
      var n := WordLen(s);
      assert forall i :: 0 <= i < n ==> s[..n][i] in s;
      [s[..n]] + Words(s[n..])
  }

  /** A word with its first character upper-cased. */
  function CapWord(w: string): (r: string)
    requires w != []
    ensures |r| == |w| && r[1..] == w[1..]
  {
    [ToUpper(w[0])] + w[1..]
  }

  /** The StringBuilder after the loop has seen `ws`: each non-empty word
      capitalised and followed by one space. */
  function Assembled(ws: seq<string>): string
    decreases |ws|
  {
    if ws == [] then []
    else
      var n := |ws| - 1;
      Assembled(ws[..n]) + (if ws[n] != [] then CapWord(ws[n]) + " " else [])
  }

  /** The capitalised words. */
  function CapWords(ws: seq<string>): (r: seq<string>)
    requires forall k :: 0 <= k < |ws| ==> ws[k] != []
    ensures |r| == |ws|
    ensures forall k :: 0 <= k < |ws| ==> r[k] == CapWord(ws[k])
  {
    seq(|ws|, k requires 0 <= k < |ws| => CapWord(ws[k]))
  }

  /** The StringBuilder loop over the words. */
  method AssembleWords(words: seq<string>) returns (sb: string)
    ensures sb == Assembled(words)
  {
    sb := "";
    var i := 0;
    while i < |words|
      invariant 0 <= i <= |words|
      invariant sb == Assembled(words[..i])
    {
      assert words[..i + 1][..i] == words[..i];
      var word := words[i];
      if word != [] {
        sb := sb + [ToUpper(word[0])];
        if |word| > 1 {
          sb := sb + word[1..];
        }
        sb := sb + " ";
      }
      i := i + 1;
    }
    assert words[..|words|] == words;
  }

  /** impl/GenericCqnService.generateLabelFromPath. */
  method GenerateLabelFromPath(path: string) returns (text: string)
    requires path == [] || HasOther(path, '.')
    ensures path == [] ==> text == "Context"
    ensures path != [] ==> text == Trim(Assembled(Words(CqnCommon.Spaced(CqnCommon.LastSegment(path)))))
  {
    if path == [] {
      return "Context";
    }
    var lastPart := CqnCommon.LastSegment(path);
    var processed := CqnCommon.Spaced(lastPart);
    var words := Words(processed);
    var sb := AssembleWords(words);
    text := Trim(sb);
  }

  /** The words as assembled are the capitalised words joined by single
      spaces, with one space after the last. */
  lemma {:induction false} AssembledIsJoin(ws: seq<string>)
    requires ws != [] && forall k :: 0 <= k < |ws| ==> ws[k] != []
    ensures Assembled(ws) == Join(CapWords(ws), ' ') + " "
    decreases |ws|
  {
    var n := |ws| - 1;
    if n == 0 {
      assert ws[..0] == [];
    } else {
      var front := ws[..n];
      AssembledIsJoin(front);
      assert CapWords(ws) == CapWords(front) + [CapWord(ws[n])];
      JoinSnoc(CapWords(front), CapWord(ws[n]), ' ');
    }
  }

  /** Trimming a text whose ends are not trimmable, plus one space. */
  lemma TrimSpaceAfter(x: string)
    requires x != [] && !IsTrimmable(x[0]) && !IsTrimmable(x[|x| - 1])
    ensures Trim(x + " ") == x
  {
    var s := x + " ";
    assert TrimStart(s) == s;
    assert s[..|s| - 1] == x;
    assert TrimEnd(s) == TrimEnd(x);
  }

  /** No character that trim removes other than \s white space. */
  predicate NoControls(s: string) {
    forall i :: 0 <= i < |s| ==> IsTrimmable(s[i]) ==> IsRegexSpace(s[i])
  }

  /** A character other than a space survives in the unspaced text. */
  lemma {:induction false} UnspacedKeeps(s: string, c: char)
    requires c != ' '
    ensures c in CqnCommon.Unspaced(s) <==> c in s
  {
    if s != [] {
      UnspacedKeeps(s[1..], c);
      assert s == [s[0]] + s[1..];
    }
  }

  /** The preprocessing adds no control character. */
  lemma SpacedNoControls(l: string)
    requires NoControls(l)
    ensures NoControls(CqnCommon.Spaced(l))
  {
    var c1 := CqnCommon.CamelSpace(l);
    CqnCommon.CamelSpaceOnlyInsertsSpaces(l);
    forall i | 0 <= i < |c1| && IsTrimmable(c1[i]) ensures IsRegexSpace(c1[i]) {
      if c1[i] != ' ' {
        UnspacedKeeps(c1, c1[i]);
        UnspacedKeeps(l, c1[i]);
        var j :| 0 <= j < |l| && l[j] == c1[i];
      }
    }
    var c2 := ReplaceChar(c1, '_', " ");
    assert NoControls(c2) by {
      forall i | 0 <= i < |c2| ensures IsTrimmable(c2[i]) ==> IsRegexSpace(c2[i]) {
        assert c2[i] in c2;
      }
    }
    var c3 := ReplaceChar(c2, '-', " ");
    assert NoControls(c3) by {
      forall i | 0 <= i < |c3| ensures IsTrimmable(c3[i]) ==> IsRegexSpace(c3[i]) {
        assert c3[i] in c3;
      }
    }
  }

  /** Words of a text without control characters have none either. */
  lemma WordsNotTrimmable(p: string)
    requires NoControls(p)
    ensures forall k, i :: 0 <= k < |Words(p)| && 0 <= i < |Words(p)[k]| ==> !IsTrimmable(Words(p)[k][i])
  {
    var ws := Words(p);
    forall k, i | 0 <= k < |ws| && 0 <= i < |ws[k]| ensures !IsTrimmable(ws[k][i]) {
      var c := ws[k][i];
      assert c in p && !IsRegexSpace(c);
      var j :| 0 <= j < |p| && p[j] == c;
    }
  }

  /** Without control characters the assembled words trim to the
      capitalised words joined by single spaces. */
  lemma TrimmedWordsAreJoin(p: string)
    requires NoControls(p)
    ensures var ws := Words(p);
      Trim(Assembled(ws)) == if ws == [] then [] else Join(CapWords(ws), ' ')
  {
    var ws := Words(p);
    if ws != [] {
      AssembledIsJoin(ws);
      WordsNotTrimmable(p);
      var cw := CapWords(ws);
      var x := Join(cw, ' ');
      JoinEnds(cw, ' ');
      assert x[0] == cw[0][0] == ToUpper(ws[0][0]);
      var last := |cw| - 1;
      assert x[|x| - 1] == cw[last][|cw[last]| - 1];
      if |ws[last]| > 1 {
        assert cw[last][|cw[last]| - 1] == ws[last][|ws[last]| - 1];
      }
      TrimSpaceAfter(x);
    }
  }

  /** Without control characters in the last segment the label is its
      capitalised words joined by single spaces (empty when there is no
      word): white-space runs of any length collapse to one space. */
  lemma WordLabelIsJoin(l: string)
    requires NoControls(l)
    ensures var ws := Words(CqnCommon.Spaced(l));
      Trim(Assembled(ws)) == if ws == [] then [] else Join(CapWords(ws), ' ')
  {
    SpacedNoControls(l);
    TrimmedWordsAreJoin(CqnCommon.Spaced(l));
  }

  /** The first and last characters of a join of non-empty pieces. */
  lemma {:induction false} JoinEnds(ps: seq<string>, sep: char)
    requires |ps| >= 1 && forall k :: 0 <= k < |ps| ==> ps[k] != []
    ensures |Join(ps, sep)| >= 1
    ensures Join(ps, sep)[0] == ps[0][0]
    ensures Join(ps, sep)[|Join(ps, sep)| - 1] == ps[|ps| - 1][|ps[|ps| - 1]| - 1]
    decreases |ps|
  {
    if |ps| > 1 {
      JoinEnds(ps[1..], sep);
    }
  }

  /** A join of non-empty pieces free of the separator never has two
      separators side by side. */
  lemma {:induction false} JoinNoDoubleSeparator(ps: seq<string>, sep: char)
    requires |ps| >= 1 && forall k :: 0 <= k < |ps| ==> ps[k] != [] && sep !in ps[k]
    ensures var j := Join(ps, sep);
      forall i :: 0 <= i < |j| - 1 ==> !(j[i] == sep && j[i + 1] == sep)
    decreases |ps|
  {
    if |ps| > 1 {
      var rest := Join(ps[1..], sep);
      JoinNoDoubleSeparator(ps[1..], sep);
      JoinEnds(ps[1..], sep);
      var j := ps[0] + [sep] + rest;
      forall i | 0 <= i < |j| - 1 ensures !(j[i] == sep && j[i + 1] == sep) {
        if i < |ps[0]| {
          assert j[i] == ps[0][i];
        } else if i == |ps[0]| {
          assert j[i + 1] == rest[0] == ps[1][0];
        } else {
          assert j[i] == rest[i - |ps[0]| - 1] && j[i + 1] == rest[i - |ps[0]|];
        }
      }
    }
  }

  /** The older label never holds two spaces in a row (when the segment has
      no control characters), whereas the common label keeps every
      white-space run of the processed segment where it was
      (CqnCommon.CapsFromPointwise): "a__b" gives "A B" here and "A  B"
      there. */
  lemma WordLabelNoDoubleSpace(l: string)
    requires NoControls(l)
    ensures var t := Trim(Assembled(Words(CqnCommon.Spaced(l))));
      forall i :: 0 <= i < |t| - 1 ==> !(t[i] == ' ' && t[i + 1] == ' ')
  {
    var ws := Words(CqnCommon.Spaced(l));
    WordLabelIsJoin(l);
    if ws != [] {
      var cw := CapWords(ws);
      forall k | 0 <= k < |cw| ensures cw[k] != [] && ' ' !in cw[k] {
        assert cw[k][0] == ToUpper(ws[k][0]) && !IsRegexSpace(ws[k][0]);
        forall i | 0 <= i < |cw[k]| ensures cw[k][i] != ' ' {
          if i > 0 {
            assert cw[k][i] == ws[k][i];
          }
          assert !IsRegexSpace(ws[k][i]);
        }
      }
      JoinNoDoubleSeparator(cw, ' ');
    }
  }
}
