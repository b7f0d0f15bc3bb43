/** The java.lang.String, Character and Integer behaviour the modelled code
    relies on, stated over `seq<char>`. */
module JavaText {
  import opened Wrappers

  // ---------------------------------------------------------------------
  // Character classes

  /** String.trim() removes every code point up to U+0020 at either end. */
  predicate IsTrimmable(c: char) { c <= ' ' }

  /** Character.isWhitespace: the Unicode space, line and paragraph
      separators except the non-breaking ones, and the ASCII controls
      U+0009..U+000D and U+001C..U+001F. */
  predicate IsWhitespace(c: char) {
    ('\t' <= c <= '\r') || ('\U{1C}' <= c <= '\U{1F}') || c == ' '
    || c == '\U{1680}' || ('\U{2000}' <= c <= '\U{2006}') || ('\U{2008}' <= c <= '\U{200A}')
    || c == '\U{2028}' || c == '\U{2029}' || c == '\U{205F}' || c == '\U{3000}'
  }

  /** The regular-expression class \s without UNICODE_CHARACTER_CLASS:
      [ \t\n\x0B\f\r]. */
  predicate IsRegexSpace(c: char) { c == ' ' || ('\t' <= c <= '\r') }

  predicate IsLower(c: char) { 'a' <= c <= 'z' }
  predicate IsUpper(c: char) { 'A' <= c <= 'Z' }
  predicate IsLetter(c: char) { IsLower(c) || IsUpper(c) }
  predicate IsDigit(c: char) { '0' <= c <= '9' }

  function ToUpper(c: char): (r: char)
    ensures IsLower(c) ==> IsUpper(r)
    ensures !IsLower(c) ==> r == c
  {
    if IsLower(c) then (c as int - 32) as char else c
  }

  function ToLower(c: char): (r: char)
    ensures IsUpper(c) ==> IsLower(r)
    ensures !IsUpper(c) ==> r == c
  {
    if IsUpper(c) then (c as int + 32) as char else c
  }

  function LowerCase(s: string): (r: string)
    ensures |r| == |s|
    ensures forall i :: 0 <= i < |s| ==> r[i] == ToLower(s[i])
  {
    if s == [] then [] else [ToLower(s[0])] + LowerCase(s[1..])
  }

  // ---------------------------------------------------------------------
  // trim / isBlank

  function TrimStart(s: string): (r: string)
    ensures |r| <= |s| && r == s[|s| - |r|..]
    ensures r == [] || !IsTrimmable(r[0])
    ensures forall i :: 0 <= i < |s| - |r| ==> IsTrimmable(s[i])
  {
    if s != [] && IsTrimmable(s[0]) then TrimStart(s[1..]) else s
  }

  function TrimEnd(s: string): (r: string)
    ensures |r| <= |s| && r == s[..|r|]
    ensures r == [] || !IsTrimmable(r[|r| - 1])
    ensures forall i :: |r| <= i < |s| ==> IsTrimmable(s[i])
  {
    if s != [] && IsTrimmable(s[|s| - 1]) then TrimEnd(s[..|s| - 1]) else s
  }

  /** String.trim(). */
  function Trim(s: string): (r: string)
    ensures r == [] || (!IsTrimmable(r[0]) && !IsTrimmable(r[|r| - 1]))
    ensures |r| <= |s|
  {
    TrimEnd(TrimStart(s))
  }

  /** `s.trim().isEmpty()`: the string is empty once trimmed. */
  predicate TrimEmpty(s: string) { forall i :: 0 <= i < |s| ==> IsTrimmable(s[i]) }

  lemma TrimEmptyIff(s: string)
    ensures TrimEmpty(s) <==> Trim(s) == []
  {
  }

  /** trim() leaves a string alone whose ends are not trimmable. */
  lemma TrimUntrimmed(s: string)
    requires s == [] || (!IsTrimmable(s[0]) && !IsTrimmable(s[|s| - 1]))
    ensures Trim(s) == s
  {
    assert TrimStart(s) == s;
    assert TrimEnd(s) == s;
  }

  /** String.isBlank() (Java 11): empty or only Character.isWhitespace. */
  predicate IsBlank(s: string) { forall i :: 0 <= i < |s| ==> IsWhitespace(s[i]) }

  // ---------------------------------------------------------------------
  // Searching

  predicate StartsWith(s: string, p: string) { |p| <= |s| && s[..|p|] == p }
  predicate EndsWith(s: string, p: string) { |p| <= |s| && s[|s| - |p|..] == p }

  /** String.indexOf(char): the first position of c, or -1. */
  function IndexOf(s: string, c: char): (r: int)
    ensures -1 <= r < |s|
    ensures r >= 0 ==> s[r] == c && c !in s[..r]
    ensures r == -1 <==> c !in s
  {
    if s == [] then -1
    else if s[0] == c then 0
    else var k := IndexOf(s[1..], c); if k < 0 then -1 else k + 1
  }

  /** String.lastIndexOf(char): the last position of c, or -1. */
  function LastIndexOf(s: string, c: char): (r: int)
    ensures -1 <= r < |s|
    ensures r >= 0 ==> s[r] == c && c !in s[r + 1..]
    ensures r == -1 <==> c !in s
  {
    if s == [] then -1
    else if s[|s| - 1] == c then |s| - 1
    else
      var init := s[..|s| - 1];
      var k := LastIndexOf(init, c);
      assert s == init + [s[|s| - 1]];
      assert k >= 0 ==> s[k + 1..] == init[k + 1..] + [s[|s| - 1]];
      k
  }

  /** String.lastIndexOf(char, fromIndex): the last position of c that is
      at most fromIndex, or -1. */
  function LastIndexOfFrom(s: string, c: char, from: int): (r: int)
    ensures -1 <= r < |s|
    ensures r >= 0 ==> r <= from && s[r] == c
    ensures forall j :: r < j < |s| && j <= from ==> s[j] != c
  {
    if from < 0 then -1
    else
      var k := LastIndexOf(s[..if from + 1 < |s| then from + 1 else |s|], c);
      assert forall j :: k < j < |s| && j <= from ==> s[j] == s[..if from + 1 < |s| then from + 1 else |s|][j];
      k
  }

  /** String.contains for a non-empty needle. */
  predicate Contains(s: string, t: string) {
    exists i :: 0 <= i <= |s| && OccursAt(s, t, i)
  }

  predicate OccursAt(s: string, t: string, i: int) {
    0 <= i && i + |t| <= |s| && s[i..i + |t|] == t
  }

  // ---------------------------------------------------------------------
  // replace (literal, leftmost, non-overlapping)

  /** String.replace(target, replacement) for a non-empty target. */
  function Replace(s: string, t: string, rep: string): (r: string)
    requires |t| > 0
    decreases |s|
  {
    if |s| < |t| then s
    else if s[..|t|] == t then rep + Replace(s[|t|..], t, rep)
    else [s[0]] + Replace(s[1..], t, rep)
  }

  lemma {:induction false} ReplaceAbsent(s: string, t: string, rep: string)
    requires |t| > 0 && !Contains(s, t)
    ensures Replace(s, t, rep) == s
    decreases |s|
  {
    if |s| >= |t| {
      assert !OccursAt(s, t, 0);
      assert s[0..|t|] == s[..|t|];
      if Contains(s[1..], t) {
        var i :| 0 <= i <= |s[1..]| && OccursAt(s[1..], t, i);
        assert s[i + 1..i + 1 + |t|] == t;
        assert OccursAt(s, t, i + 1);
      }
      ReplaceAbsent(s[1..], t, rep);
    }
  }

  /** String.replace(char-as-string, replacement): every occurrence of the
      single character c becomes rep. */
  function ReplaceChar(s: string, c: char, rep: string): (r: string)
    ensures c !in s ==> r == s
    ensures c !in rep ==> c !in r
    ensures forall d :: d in r ==> (d in s && d != c) || d in rep
  {
    if s == [] then [] else (if s[0] == c then rep else [s[0]]) + ReplaceChar(s[1..], c, rep)
  }

  lemma {:induction false} ReplaceCharAppend(a: string, b: string, c: char, rep: string)
    ensures ReplaceChar(a + b, c, rep) == ReplaceChar(a, c, rep) + ReplaceChar(b, c, rep)
  {
    if a == [] {
      assert a + b == b;
    } else {
      assert (a + b)[0] == a[0];
      assert (a + b)[1..] == a[1..] + b;
      ReplaceCharAppend(a[1..], b, c, rep);
    }
  }

  // ---------------------------------------------------------------------
  // split on a single literal separator character

  /** Every piece between separators, empty ones included (the raw
      result of splitting before Java drops trailing empty strings). */
  function Pieces(s: string, sep: char): (r: seq<string>)
    ensures |r| >= 1
    ensures forall k :: 0 <= k < |r| ==> sep !in r[k]
  {
    if s == [] then [[]]
    else
      var rest := Pieces(s[1..], sep);
      if s[0] == sep then [[]] + rest else [[s[0]] + rest[0]] + rest[1..]
  }

  /** String.join(", ", ps), also the element list of
      AbstractCollection.toString. */
  function CommaJoin(ps: seq<string>): string {
    if ps == [] then [] else if |ps| == 1 then ps[0] else ps[0] + ", " + CommaJoin(ps[1..])
  }

  /** Appending one more element adds one separator before it. */
  lemma {:induction false} CommaJoinSnoc(ps: seq<string>, x: string)
    requires ps != []
    ensures CommaJoin(ps + [x]) == CommaJoin(ps) + ", " + x
  {
    if |ps| == 1 {
      assert (ps + [x])[1..] == [x];
    } else {
      assert (ps + [x])[1..] == ps[1..] + [x];
      CommaJoinSnoc(ps[1..], x);
    }
  }

  /** Joins pieces with the separator; the inverse of Pieces. */
  function Join(ps: seq<string>, sep: char): string
    requires |ps| >= 1
  {
    if |ps| == 1 then ps[0] else ps[0] + [sep] + Join(ps[1..], sep)
  }

  lemma {:induction false} JoinPieces(s: string, sep: char)
    ensures Join(Pieces(s, sep), sep) == s
  {
    if s != [] {
      JoinPieces(s[1..], sep);
      var rest := Pieces(s[1..], sep);
      if s[0] != sep {
        if |rest| == 1 {
        } else {
          assert ([[s[0]] + rest[0]] + rest[1..])[1..] == rest[1..];
          assert Join(rest, sep) == rest[0] + [sep] + Join(rest[1..], sep);
        }
      } else {
        assert ([[]] + rest)[1..] == rest;
      }
    }
  }

  /** Moving the first character of the first piece out of the join. */
  lemma JoinFirstChar(ps: seq<string>, sep: char)
    requires |ps| >= 1 && |ps[0]| > 0
    ensures Join(ps, sep) == [ps[0][0]] + Join([ps[0][1..]] + ps[1..], sep)
  {
    var tail := [ps[0][1..]] + ps[1..];
    assert ps[0] == [ps[0][0]] + ps[0][1..];
    if |ps| > 1 {
      assert tail[1..] == ps[1..];
    }
  }

  lemma {:induction false} PiecesJoin(ps: seq<string>, sep: char)
    requires |ps| >= 1
    requires forall k :: 0 <= k < |ps| ==> sep !in ps[k]
    ensures Pieces(Join(ps, sep), sep) == ps
    decreases |ps|, |ps[0]|
  {
    if |ps[0]| > 0 {
      var c := ps[0][0];
      var tail := [ps[0][1..]] + ps[1..];
      assert forall k :: 0 <= k < |tail| ==> sep !in tail[k] by {
        assert forall k :: 1 <= k < |tail| ==> tail[k] == ps[k];
      }
      PiecesJoin(tail, sep);
      JoinFirstChar(ps, sep);
      var j := [c] + Join(tail, sep);
      assert j[1..] == Join(tail, sep);
      assert c != sep by { assert c in ps[0]; }
      assert Pieces(j, sep) == [[c] + tail[0]] + tail[1..];
      assert [[c] + tail[0]] + tail[1..] == ps by {
        assert [c] + ps[0][1..] == ps[0];
      }
    } else if |ps| > 1 {
      var j := Join(ps, sep);
      assert j == [sep] + Join(ps[1..], sep);
      assert j[1..] == Join(ps[1..], sep);
      PiecesJoin(ps[1..], sep);
      assert [[]] + ps[1..] == ps;
    }
  }

  lemma {:induction false} JoinSnoc(ps: seq<string>, t: string, sep: char)
    requires |ps| >= 1
    ensures Join(ps + [t], sep) == Join(ps, sep) + [sep] + t
    decreases |ps|
  {
    if |ps| > 1 {
      assert (ps + [t])[1..] == ps[1..] + [t];
      JoinSnoc(ps[1..], t, sep);
    }
  }

  /** One more separator and a separator-free tail add one piece. */
  lemma PiecesSnoc(s: string, t: string, sep: char)
    requires sep !in t
    ensures Pieces(s + [sep] + t, sep) == Pieces(s, sep) + [t]
  {
    var ps := Pieces(s, sep);
    JoinPieces(s, sep);
    JoinSnoc(ps, t, sep);
    assert forall k :: 0 <= k < |ps + [t]| ==> sep !in (ps + [t])[k];
    PiecesJoin(ps + [t], sep);
  }

  /** Joining two lists of pieces puts one separator between their joins. */
  lemma {:induction false} JoinAppend(a: seq<string>, b: seq<string>, sep: char)
    requires |a| >= 1 && |b| >= 1
    ensures Join(a + b, sep) == Join(a, sep) + [sep] + Join(b, sep)
    decreases |a|
  {
    if |a| > 1 {
      assert (a + b)[1..] == a[1..] + b;
      JoinAppend(a[1..], b, sep);
    } else {
      assert (a + b)[1..] == b;
    }
  }

  /** Splitting at one separator splits the pieces there too. */
  lemma PiecesAppend(s: string, t: string, sep: char)
    ensures Pieces(s + [sep] + t, sep) == Pieces(s, sep) + Pieces(t, sep)
  {
    var a, b := Pieces(s, sep), Pieces(t, sep);
    JoinPieces(s, sep);
    JoinPieces(t, sep);
    JoinAppend(a, b, sep);
    assert forall k :: 0 <= k < |a + b| ==> sep !in (a + b)[k];
    PiecesJoin(a + b, sep);
  }

  /** The last separator of s + sep + t, when t has none, is the one added. */
  lemma {:induction false} LastIndexOfSnoc(s: string, t: string, sep: char)
    requires sep !in t
    ensures LastIndexOf(s + [sep] + t, sep) == |s|
  {
    if t != [] {
      var x := s + [sep] + t;
      assert x[|x| - 1] == t[|t| - 1];
      assert x[..|x| - 1] == s + [sep] + t[..|t| - 1];
      LastIndexOfSnoc(s, t[..|t| - 1], sep);
    }
  }

  /** The first occurrence, once every earlier position is known to differ. */
  lemma {:induction false} IndexOfAt(s: string, c: char, i: int)
    requires 0 <= i < |s| && s[i] == c
    requires forall j :: 0 <= j < i ==> s[j] != c
    ensures IndexOf(s, c) == i
    decreases i
  {
    if i > 0 {
      var u := s[1..];
      assert u[i - 1] == c;
      assert forall j :: 0 <= j < i - 1 ==> u[j] == s[j + 1];
      IndexOfAt(u, c, i - 1);
    }
  }

  lemma {:induction false} LastIndexOfAt(s: string, c: char, i: int)
    requires 0 <= i < |s| && s[i] == c
    requires forall j :: i < j < |s| ==> s[j] != c
    ensures LastIndexOf(s, c) == i
    decreases |s|
  {
    if i < |s| - 1 {
      var u := s[..|s| - 1];
      assert u[i] == c;
      assert forall j :: i < j < |u| ==> u[j] == s[j];
      LastIndexOfAt(u, c, i);
    }
  }

  lemma {:induction false} LastIndexOfAppendAbsent(s: string, t: string, c: char)
    requires c !in t
    ensures LastIndexOf(s + t, c) == LastIndexOf(s, c)
    decreases |t|
  {
    if t == [] {
      assert s + t == s;
    } else {
      var x := s + t;
      assert x[|x| - 1] == t[|t| - 1];
      assert x[..|x| - 1] == s + t[..|t| - 1];
      LastIndexOfAppendAbsent(s, t[..|t| - 1], c);
    }
  }

  /** Removes the trailing empty strings, as String.split with limit 0 does. */
  function DropTrailingEmpty(ps: seq<string>): (r: seq<string>)
    ensures |r| <= |ps| && r == ps[..|r|]
    ensures r == [] || r[|r| - 1] != []
    ensures forall k :: |r| <= k < |ps| ==> ps[k] == []
  {
    if ps != [] && ps[|ps| - 1] == [] then DropTrailingEmpty(ps[..|ps| - 1]) else ps
  }

  /** String.split(regex) where the regex matches exactly the one
      character sep (for instance "\\."): an input with no separator
      (the empty string included) gives itself; otherwise the pieces with
      trailing empty pieces removed. */
  function Split(s: string, sep: char): (r: seq<string>)
    ensures forall k :: 0 <= k < |r| ==> sep !in r[k]
    ensures s == [] ==> r == [[]]
    ensures sep !in s ==> r == [s]
  {
    if s == [] then [[]]
    else
      var r := DropTrailingEmpty(Pieces(s, sep));
      assert sep !in s ==> Pieces(s, sep) == [s] by {
        if sep !in s { PiecesJoin([s], sep); }
      }
      r
  }

  /** A string whose separator-delimited pieces are all non-empty. */
  predicate NoEmptySegment(s: string, sep: char) {
    forall k :: 0 <= k < |Pieces(s, sep)| ==> Pieces(s, sep)[k] != []
  }

  lemma SplitClean(s: string, sep: char)
    requires NoEmptySegment(s, sep)
    ensures Split(s, sep) == Pieces(s, sep)
  {
    var ps := Pieces(s, sep);
    assert ps[|ps| - 1] != [];
  }

  /** Some character of s is not sep. */
  predicate HasOther(s: string, sep: char) { exists i :: 0 <= i < |s| && s[i] != sep }

  lemma {:induction false} JoinAllSeparators(ps: seq<string>, sep: char)
    requires |ps| >= 1
    requires forall k :: 0 <= k < |ps| ==> ps[k] == []
    ensures forall i :: 0 <= i < |Join(ps, sep)| ==> Join(ps, sep)[i] == sep
  {
    if |ps| > 1 {
      JoinAllSeparators(ps[1..], sep);
      assert Join(ps, sep) == [sep] + Join(ps[1..], sep);
    }
  }

  /** Only a non-empty string made of separators alone splits into no
      pieces at all. */
  lemma SplitHasPiece(s: string, sep: char)
    requires s == [] || HasOther(s, sep)
    ensures |Split(s, sep)| >= 1
  {
    if s != [] {
      var ps := Pieces(s, sep);
      JoinPieces(s, sep);
      var i :| 0 <= i < |s| && s[i] != sep;
      if forall k :: 0 <= k < |ps| ==> ps[k] == [] {
        JoinAllSeparators(ps, sep);
        assert false;
      }
      var k :| 0 <= k < |ps| && ps[k] != [];
      var r := DropTrailingEmpty(ps);
      assert k < |r|;
    }
  }

  // ---------------------------------------------------------------------
  // Integer.parseInt / Integer.toString

  const INT_MIN: int := -0x8000_0000
  const INT_MAX: int := 0x7FFF_FFFF

  function DigitValue(c: char): nat requires IsDigit(c) { c as int - '0' as int }

  predicate AllDigits(s: string) { forall i :: 0 <= i < |s| ==> IsDigit(s[i]) }

  /** The value of a string of decimal digits, most significant first. */
  function DigitsValue(s: string): nat
    requires AllDigits(s)
  {
    if s == [] then 0 else DigitsValue(s[..|s| - 1]) * 10 + DigitValue(s[|s| - 1])
  }

  /** Integer.parseInt(s): an optional sign then one or more digits, with a
      value inside the 32-bit range; anything else is a
      NumberFormatException, here None. */
  function ParseInt(s: string): (r: Option<int>)
    ensures r.Some? ==> INT_MIN <= r.value <= INT_MAX
    ensures s == [] ==> r == None
  {
    if s == [] then None
    else
      var neg := s[0] == '-';
      var body := if s[0] == '-' || s[0] == '+' then s[1..] else s;
      if body == [] || !AllDigits(body) then None
      else
        var v := if neg then -(DigitsValue(body) as int) else DigitsValue(body) as int;
        if INT_MIN <= v <= INT_MAX then Some(v) else None
  }

  /** Integer.toString for a non-negative value. */
  function Decimal(n: nat): (r: string)
    ensures |r| >= 1 && AllDigits(r)
  {
    if n < 10 then [('0' as int + n) as char]
    else Decimal(n / 10) + [('0' as int + n % 10) as char]
  }

  /** Integer.toString. */
  function IntToString(n: int): (r: string)
    ensures |r| >= 1
  {
    if n < 0 then "-" + Decimal(-n) else Decimal(n)
  }

  lemma {:induction false} DecimalValue(n: nat)
    ensures DigitsValue(Decimal(n)) == n
  {
    if n >= 10 {
      DecimalValue(n / 10);
      var d := Decimal(n);
      assert d[..|d| - 1] == Decimal(n / 10);
    }
  }

  /** Integer.parseInt inverts Integer.toString on the 32-bit range. */
  lemma ParseIntToString(n: int)
    requires INT_MIN <= n <= INT_MAX
    ensures ParseInt(IntToString(n)) == Some(n)
  {
    var m: nat := if n < 0 then -n else n;
    var d := Decimal(m);
    DecimalValue(m);
    assert IsDigit(d[0]);
    if n < 0 {
      var s := "-" + d;
      assert s[0] == '-' && s[1..] == d;
      assert IntToString(n) == s;
    } else {
      assert IntToString(n) == d;
    }
  }

  // ---------------------------------------------------------------------
  // equalsIgnoreCase against an ASCII literal

  predicate EqualsIgnoreCase(s: string, t: string) {
    |s| == |t| && forall i :: 0 <= i < |s| ==> ToLower(s[i]) == ToLower(t[i])
  }
}
