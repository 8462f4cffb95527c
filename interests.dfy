/** The interests field of the registration form: the text is split on
    commas, every piece is trimmed with JavaScript's `String.prototype.trim`,
    and the pieces left empty are dropped. */
module Interests {

  /** The characters `trim` removes: ECMAScript's WhiteSpace (tab, vertical
      tab, form feed, space, no-break space, the byte order mark and the
      space separators) and LineTerminator (line feed, carriage return,
      line and paragraph separators). */
  predicate IsWhitespace(c: char) {
    c == '\t' || c == '\n' || c == '\U{B}' || c == '\U{C}' || c == '\r' || c == ' '
    || c == '\U{A0}' || c == '\U{1680}' || ('\U{2000}' <= c <= '\U{200A}')
    || c == '\U{2028}' || c == '\U{2029}' || c == '\U{202F}' || c == '\U{205F}'
    || c == '\U{3000}' || c == '\U{FEFF}'
  }

  predicate Blank(s: string) {
    forall i :: 0 <= i < |s| ==> IsWhitespace(s[i])
  }

  predicate NoComma(s: string) {
    forall i :: 0 <= i < |s| ==> s[i] != ','
  }

  function CommaCount(s: string): nat {
    if s == [] then 0 else (if s[0] == ',' then 1 else 0) + CommaCount(s[1..])
  }

  /** `s.split(",")`: the pieces between commas, so one more piece than there
      are commas, none of them holding a comma, empty pieces included. */
  function Split(s: string): (r: seq<string>)
    ensures |r| == CommaCount(s) + 1
    ensures forall p :: p in r ==> NoComma(p)
  {
    if s == [] then [[]]
    else
      var rest := Split(s[1..]);
      if s[0] == ',' then [[]] + rest
      else
        assert rest[0] in rest && forall p :: p in rest[1..] ==> p in rest;
        [[s[0]] + rest[0]] + rest[1..]
  }

  /** `pieces.join(",")`. */
  function Join(pieces: seq<string>): string
    requires |pieces| >= 1
  {
    if |pieces| == 1 then pieces[0] else pieces[0] + [','] + Join(pieces[1..])
  }

  /** Joining the pieces back with commas gives the original text. */
  lemma {:induction false} JoinSplit(s: string)
    ensures Join(Split(s)) == s
  {
    if s != [] {
      JoinSplit(s[1..]);
      var rest := Split(s[1..]);
      if s[0] != ',' {
        if |rest| == 1 {
        } else {
          assert ([[s[0]] + rest[0]] + rest[1..])[1..] == rest[1..];
          assert Join(rest) == rest[0] + [','] + Join(rest[1..]);
        }
      }
    }
  }

  /** Splitting around one comma splits each side on its own. */
  lemma {:induction false} SplitAppend(a: string, b: string)
    ensures Split(a + [','] + b) == Split(a) + Split(b)
  {
    if a == [] {
      assert [','] + b == [','] + b;
    } else {
      assert (a + [','] + b)[0] == a[0];
      assert (a + [','] + b)[1..] == a[1..] + [','] + b;
      SplitAppend(a[1..], b);
      var ra := Split(a[1..]);
      assert (ra + Split(b))[0] == ra[0];
      assert (ra + Split(b))[1..] == ra[1..] + Split(b);
    }
  }

  lemma {:induction false} SplitNoComma(s: string)
    requires NoComma(s)
    ensures Split(s) == [s]
  {
    if s != [] {
      SplitNoComma(s[1..]);
      assert [s[0]] + s[1..] == s;
    }
  }

  /** Splitting undoes joining pieces that hold no comma. */
  lemma {:induction false} SplitJoin(pieces: seq<string>)
    requires |pieces| >= 1 && forall p :: p in pieces ==> NoComma(p)
    ensures Split(Join(pieces)) == pieces
  {
    if |pieces| == 1 {
      SplitNoComma(pieces[0]);
    } else {
      SplitAppend(pieces[0], Join(pieces[1..]));
      SplitNoComma(pieces[0]);
      SplitJoin(pieces[1..]);
    }
  }

  /** `trimStart`: drops the leading whitespace. */
  function TrimStart(s: string): (r: string)
    ensures |r| <= |s| && r == s[|s| - |r|..]
    ensures Blank(s[..|s| - |r|])
    ensures r == [] || !IsWhitespace(r[0])
  {
    if s != [] && IsWhitespace(s[0]) then
      var r := TrimStart(s[1..]);
      assert s[..|s| - |r|] == [s[0]] + s[1..][..|s[1..]| - |r|];
      r
    else s
  }

  /** `trimEnd`: drops the trailing whitespace. */
  function TrimEnd(s: string): (r: string)
    ensures |r| <= |s| && r == s[..|r|]
    ensures Blank(s[|r|..])
    ensures r == [] || !IsWhitespace(r[|r| - 1])
  {
    if s != [] && IsWhitespace(s[|s| - 1]) then
      var r := TrimEnd(s[..|s| - 1]);
      assert s[|r|..] == s[..|s| - 1][|r|..] + [s[|s| - 1]];
      r
    else s
  }

  /** `trim`: the piece between the leading and the trailing whitespace. */
  function Trim(s: string): (r: string)
    ensures exists i, j :: 0 <= i <= j <= |s| && r == s[i..j] && Blank(s[..i]) && Blank(s[j..])
    ensures r == [] || (!IsWhitespace(r[0]) && !IsWhitespace(r[|r| - 1]))
    ensures r == [] <==> Blank(s)
  {
    TrimIsWindow(s);
    TrimIsEmpty(s);
    TrimEnd(TrimStart(s))
  }

  lemma TrimIsWindow(s: string)
    ensures var r := TrimEnd(TrimStart(s));
            exists i, j :: 0 <= i <= j <= |s| && r == s[i..j] && Blank(s[..i]) && Blank(s[j..])
  {
    var t := TrimStart(s);
    TrimWindow(s, t, TrimEnd(t), |s| - |t|);
  }

  lemma TrimIsEmpty(s: string)
    ensures TrimEnd(TrimStart(s)) == [] <==> Blank(s)
  {
    var t := TrimStart(s);
    TrimEmpty(s, t, TrimEnd(t), |s| - |t|);
  }

  lemma TrimWindow(s: string, t: string, r: string, i: nat)
    requires i <= |s| && t == s[i..] && |r| <= |t| && r == t[..|r|]
    requires Blank(s[..i]) && Blank(t[|r|..])
    ensures exists i', j :: 0 <= i' <= j <= |s| && r == s[i'..j] && Blank(s[..i']) && Blank(s[j..])
  {
    assert r == s[i..i + |r|];
    assert s[i + |r|..] == t[|r|..];
  }

  lemma TrimEmpty(s: string, t: string, r: string, i: nat)
    requires i <= |s| && t == s[i..] && |r| <= |t| && r == t[..|r|]
    requires Blank(s[..i]) && Blank(t[|r|..])
    requires t == [] || !IsWhitespace(t[0])
    ensures r == [] <==> Blank(s)
  {
    if r == [] {
      assert t == t[|r|..];
      BlankConcat(s[..i], t);
      assert s == s[..i] + t;
    } else {
      assert r[0] == s[i];
    }
  }

  lemma BlankConcat(a: string, b: string)
    requires Blank(a) && Blank(b)
    ensures Blank(a + b)
  {
    assert forall k :: |a| <= k < |a + b| ==> (a + b)[k] == b[k - |a|];
  }

  /** Trimming a trimmed piece changes nothing. */
  lemma TrimIdempotent(s: string)
    ensures Trim(Trim(s)) == Trim(s)
  {
    var r := Trim(s);
    if r != [] {
      TrimFixed(r);
    }
  }

  lemma TrimFixed(s: string)
    requires s != [] && !IsWhitespace(s[0]) && !IsWhitespace(s[|s| - 1])
    ensures Trim(s) == s
  {
    assert TrimStart(s) == s;
    assert TrimEnd(s) == s;
  }

  /** `.map((i) => i.trim()).filter(Boolean)` over the pieces. */
  function KeepTrimmed(pieces: seq<string>): (r: seq<string>)
    ensures |r| <= |pieces|
  {
    if pieces == [] then []
    else
      var rest := KeepTrimmed(pieces[1..]);
      (if Trim(pieces[0]) == [] then [] else [Trim(pieces[0])]) + rest
  }

  /** Nothing is kept exactly when every piece is blank. */
  lemma {:induction false} KeepTrimmedEmpty(pieces: seq<string>)
    ensures KeepTrimmed(pieces) == [] <==> forall p :: p in pieces ==> Blank(p)
  {
    if pieces != [] {
      KeepTrimmedEmpty(pieces[1..]);
      assert pieces == [pieces[0]] + pieces[1..];
    }
  }

  lemma {:induction false} KeepTrimmedAppend(a: seq<string>, b: seq<string>)
    ensures KeepTrimmed(a + b) == KeepTrimmed(a) + KeepTrimmed(b)
  {
    if a == [] {
      assert a + b == b;
    } else {
      var h := if Trim(a[0]) == [] then [] else [Trim(a[0])];
      assert (a + b)[0] == a[0];
      assert (a + b)[1..] == a[1..] + b;
      KeepTrimmedAppend(a[1..], b);
      calc {
        KeepTrimmed(a + b);
        h + KeepTrimmed(a[1..] + b);
        h + (KeepTrimmed(a[1..]) + KeepTrimmed(b));
        (h + KeepTrimmed(a[1..])) + KeepTrimmed(b);
        KeepTrimmed(a) + KeepTrimmed(b);
      }
    }
  }

  /** Every kept piece is the trim of some piece, in particular not empty. */
  lemma {:induction false} KeptAreTrimmed(pieces: seq<string>)
    ensures forall x :: x in KeepTrimmed(pieces) ==>
              x != [] && exists p :: p in pieces && x == Trim(p)
  {
    if pieces != [] {
      KeptAreTrimmed(pieces[1..]);
      assert pieces == [pieces[0]] + pieces[1..];
    }
  }

  /** The interests sent with the registration. */
  function ParseInterests(s: string): seq<string> {
    KeepTrimmed(Split(s))
  }

  lemma TrimNoComma(s: string)
    requires NoComma(s)
    ensures NoComma(Trim(s))
  {
    var i, j :| 0 <= i <= j <= |s| && Trim(s) == s[i..j];
    assert forall k :: 0 <= k < |Trim(s)| ==> Trim(s)[k] == s[i + k];
  }

  /** No parsed interest is empty, holds a comma, or has whitespace at either
      end: each equals its own trim. */
  lemma ParsedInterestsClean(s: string)
    ensures forall x :: x in ParseInterests(s) ==>
              x != [] && NoComma(x) && Trim(x) == x
              && !IsWhitespace(x[0]) && !IsWhitespace(x[|x| - 1])
  {
    KeptAreTrimmed(Split(s));
    forall x | x in ParseInterests(s)
      ensures x != [] && NoComma(x) && Trim(x) == x
    {
      var p :| p in Split(s) && x == Trim(p);
      TrimNoComma(p);
      TrimIdempotent(p);
    }
  }

  /** There are at most as many interests as commas plus one. */
  lemma InterestCountBound(s: string)
    ensures |ParseInterests(s)| <= CommaCount(s) + 1
  {
  }

  /** The list is empty exactly when the text holds only commas and whitespace. */
  lemma EmptyIffBlank(s: string)
    ensures ParseInterests(s) == [] <==> forall i :: 0 <= i < |s| ==> s[i] == ',' || IsWhitespace(s[i])
  {
    var pieces := Split(s);
    JoinSplit(s);
    KeepTrimmedEmpty(pieces);
    if ParseInterests(s) == [] {
      BlankPiecesJoin(pieces);
    } else {
      var p :| p in pieces && !Blank(p);
      var c :| 0 <= c < |p| && !IsWhitespace(p[c]);
      JoinHasChar(pieces, p, c);
    }
  }

  lemma {:induction false} BlankPiecesJoin(pieces: seq<string>)
    requires |pieces| >= 1 && forall p :: p in pieces ==> Blank(p)
    ensures forall i :: 0 <= i < |Join(pieces)| ==> Join(pieces)[i] == ',' || IsWhitespace(Join(pieces)[i])
  {
    assert pieces[0] in pieces;
    if |pieces| > 1 {
      assert forall p :: p in pieces[1..] ==> p in pieces;
      BlankPiecesJoin(pieces[1..]);
      var j := Join(pieces[1..]);
      assert Join(pieces) == pieces[0] + [','] + j;
      forall i | 0 <= i < |Join(pieces)| ensures Join(pieces)[i] == ',' || IsWhitespace(Join(pieces)[i]) {
        if i < |pieces[0]| {
          assert Join(pieces)[i] == pieces[0][i];
        } else if i > |pieces[0]| {
          assert Join(pieces)[i] == j[i - |pieces[0]| - 1];
        }
      }
    }
  }

  lemma {:induction false} JoinHasChar(pieces: seq<string>, p: string, c: nat)
    requires |pieces| >= 1 && p in pieces && c < |p| && p[c] != ','
    ensures exists i :: 0 <= i < |Join(pieces)| && Join(pieces)[i] == p[c]
  {
    if p == pieces[0] {
      if |pieces| > 1 {
        assert Join(pieces) == pieces[0] + [','] + Join(pieces[1..]);
      }
      assert Join(pieces)[c] == p[c];
    } else {
      assert p in pieces[1..];
      var j := Join(pieces[1..]);
      assert Join(pieces) == pieces[0] + [','] + j;
      JoinHasChar(pieces[1..], p, c);
      var i :| 0 <= i < |j| && j[i] == p[c];
      assert Join(pieces)[|pieces[0]| + 1 + i] == j[i];
    }
  }

  /** Input order is kept: the interests of two texts joined by a comma are
      the interests of the first followed by those of the second. */
  lemma ParseAppend(a: string, b: string)
    ensures ParseInterests(a + [','] + b) == ParseInterests(a) + ParseInterests(b)
  {
    SplitAppend(a, b);
    KeepTrimmedAppend(Split(a), Split(b));
  }

  /** Clean interests written out with commas are read back unchanged and in
      the same order. */
  lemma ParseJoin(xs: seq<string>)
    requires |xs| >= 1
    requires forall x :: x in xs ==> x != [] && NoComma(x) && Trim(x) == x
    ensures ParseInterests(Join(xs)) == xs
  {
    SplitJoin(xs);
    KeepClean(xs);
  }

  lemma {:induction false} KeepClean(xs: seq<string>)
    requires forall x :: x in xs ==> x != [] && Trim(x) == x
    ensures KeepTrimmed(xs) == xs
  {
    if xs != [] {
      assert xs[0] in xs && forall x :: x in xs[1..] ==> x in xs;
      KeepClean(xs[1..]);
    }
  }
}
