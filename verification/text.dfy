/** String operations of the JavaScript runtime that the pages use: `trim`,
    `toLowerCase`/`toUpperCase` (on ASCII letters), `includes`, `startsWith`,
    `split(/\s+/)`, `join` and the decimal rendering of a whole number. */
module Text {

  /** ECMAScript WhiteSpace and LineTerminator code points: the characters `trim`
      removes and `\s` matches. */
  predicate IsSpace(c: char)
  {
    || c == ' ' || c == '\t' || c == '\n' || c == '\r'
    || c == '\U{000B}' || c == '\U{000C}' || c == '\U{00A0}' || c == '\U{1680}'
    || ('\U{2000}' <= c <= '\U{200A}')
    || c == '\U{2028}' || c == '\U{2029}' || c == '\U{202F}' || c == '\U{205F}'
    || c == '\U{3000}' || c == '\U{FEFF}'
  }

  predicate AllSpace(s: string)
  {
    forall i :: 0 <= i < |s| ==> IsSpace(s[i])
  }

  predicate NoSpace(s: string)
  {
    forall i :: 0 <= i < |s| ==> !IsSpace(s[i])
  }

  /** Neither starts nor ends with white space. */
  predicate Trimmed(s: string)
  {
    s == [] || (!IsSpace(s[0]) && !IsSpace(s[|s| - 1]))
  }

  /** `trimStart`: drops the leading white space and nothing else (what is
      dropped and kept is `TrimStartSuffix`). */
  function TrimStart(s: string): (r: string)
    ensures |r| <= |s|
    ensures r == [] || !IsSpace(r[0])
    ensures s != [] && IsSpace(s[0]) ==> |r| < |s|
  {
    if s != [] && IsSpace(s[0]) then TrimStart(s[1..]) else s
  }

  /** `trimEnd`: drops the trailing white space and nothing else (what is
      dropped and kept is `TrimEndPrefix`). */
  function TrimEnd(s: string): (r: string)
    ensures |r| <= |s|
    ensures r == [] || !IsSpace(r[|r| - 1])
  {
    if s != [] && IsSpace(s[|s| - 1]) then TrimEnd(s[..|s| - 1]) else s
  }

  /** `trimStart` keeps a suffix of `s` and drops only white space before it. */
  lemma {:induction false} TrimStartSuffix(s: string)
    ensures var r := TrimStart(s);
            && r == s[|s| - |r|..] && AllSpace(s[..|s| - |r|])
  {
    if s != [] && IsSpace(s[0]) {
      TrimStartSuffix(s[1..]);
      var r := TrimStart(s);
      assert s[1..][|s| - 1 - |r|..] == s[|s| - |r|..];
      assert forall j :: 1 <= j < |s| - |r| ==> s[j] == s[1..][..|s| - 1 - |r|][j - 1];
    }
  }

  /** `trimEnd` keeps a prefix of `s` and drops only white space after it. */
  lemma {:induction false} TrimEndPrefix(s: string)
    ensures var r := TrimEnd(s);
            && r == s[..|r|] && AllSpace(s[|r|..])
  {
    if s != [] && IsSpace(s[|s| - 1]) {
      var p := s[..|s| - 1];
      TrimEndPrefix(p);
      var r := TrimEnd(s);
      assert p[..|r|] == s[..|r|];
      assert forall j :: |r| <= j < |s| - 1 ==> s[j] == p[|r|..][j - |r|];
    }
  }

  /** `trim`: white space removed at both ends only (`TrimIsSlice`). */
  function Trim(s: string): (r: string)
    ensures Trimmed(r)
    ensures |r| <= |s|
  {
    var t := TrimStart(s);
    TrimEndPrefix(t);
    TrimEnd(t)
  }

  /** Trimming leaves an already trimmed string alone, so it is idempotent. */
  lemma TrimOfTrimmed(s: string)
    requires Trimmed(s)
    ensures Trim(s) == s
  {
  }

  /** A string that is all white space trims to the empty string. */
  lemma {:induction false} TrimAllSpace(s: string)
    requires AllSpace(s)
    ensures Trim(s) == ""
  {
    if s != [] {
      assert AllSpace(s[1..]) by {
        forall j | 0 <= j < |s| - 1 ensures IsSpace(s[1..][j]) {
          assert s[1..][j] == s[j + 1];
        }
      }
      TrimAllSpace(s[1..]);
    }
  }

  /** `trim` removes exactly a white-space prefix and a white-space suffix: the
      result is the slice of `s` between them. */
  lemma TrimIsSlice(s: string)
    ensures var r, i := Trim(s), |s| - |TrimStart(s)|;
            && i + |r| <= |s| && r == s[i..i + |r|]
            && AllSpace(s[..i]) && AllSpace(s[i + |r|..])
  {
    var t := TrimStart(s);
    TrimStartSuffix(s);
    TrimEndPrefix(t);
    SuffixPrefix(s, t, TrimEnd(t));
  }

  /** A prefix `r` of a suffix `t` of `s` is a slice of `s`, and what `t` has
      after `r` is what `s` has after that slice. */
  lemma SuffixPrefix<T>(s: seq<T>, t: seq<T>, r: seq<T>)
    requires |t| <= |s| && t == s[|s| - |t|..] && |r| <= |t| && r == t[..|r|]
    ensures r == s[|s| - |t|..|s| - |t| + |r|] && t[|r|..] == s[|s| - |t| + |r|..]
  {
  }

  /** A string trims to nothing exactly when it is all white space. */
  lemma TrimEmpty(s: string)
    ensures Trim(s) == "" <==> AllSpace(s)
  {
    if AllSpace(s) {
      TrimAllSpace(s);
    }
    if Trim(s) == "" {
      TrimIsSlice(s);
      var i := |s| - |TrimStart(s)|;
      assert forall j :: 0 <= j < |s| ==> IsSpace(s[j]) by {
        forall j | 0 <= j < |s| ensures IsSpace(s[j]) {
          if j < i {
            assert s[..i][j] == s[j];
          } else {
            assert s[i..][j - i] == s[j];
          }
        }
      }
    }
  }

  /** Leading white space added in front of `t` is trimmed away. */
  lemma {:induction false} TrimStartSpaces(pad: string, t: string)
    requires AllSpace(pad)
    ensures TrimStart(pad + t) == TrimStart(t)
  {
    if pad != [] {
      assert (pad + t)[1..] == pad[1..] + t;
      TrimStartSpaces(pad[1..], t);
    } else {
      assert pad + t == t;
    }
  }

  /** Trailing white space added after `t` is trimmed away. */
  lemma {:induction false} TrimEndSpaces(t: string, pad: string)
    requires AllSpace(pad)
    ensures TrimEnd(t + pad) == TrimEnd(t)
  {
    if pad != [] {
      var p := pad[..|pad| - 1];
      assert (t + pad)[..|t + pad| - 1] == t + p;
      TrimEndSpaces(t, p);
    } else {
      assert t + pad == t;
    }
  }

  /** A trimmed string padded with white space on both sides trims back to
      itself. */
  lemma TrimPadded(pad: string, s: string)
    requires AllSpace(pad) && Trimmed(s)
    ensures Trim(pad + s + pad) == s
  {
    assert pad + s + pad == pad + (s + pad);
    TrimStartSpaces(pad, s + pad);
    if s == [] {
      assert s + pad == pad;
      TrimAllSpace(pad);
    } else {
      assert (s + pad)[0] == s[0];
      TrimEndSpaces(s, pad);
    }
  }

  lemma SplitEmpty()
    ensures Split("") == [""]
  {
    assert SpaceIndex("") == 0;
  }

  function LowerChar(c: char): char
  {
    if 'A' <= c <= 'Z' then (c as int + 32) as char else c
  }

  function UpperChar(c: char): char
  {
    if 'a' <= c <= 'z' then (c as int - 32) as char else c
  }

  /** `toLowerCase`, on ASCII letters. */
  function ToLower(s: string): (r: string)
    ensures |r| == |s|
    ensures forall i :: 0 <= i < |s| ==> !('A' <= r[i] <= 'Z')
  {
    seq(|s|, i requires 0 <= i < |s| => LowerChar(s[i]))
  }

  /** `toUpperCase`, on ASCII letters. */
  function ToUpper(s: string): (r: string)
    ensures |r| == |s|
    ensures forall i :: 0 <= i < |s| ==> !('a' <= r[i] <= 'z')
  {
    seq(|s|, i requires 0 <= i < |s| => UpperChar(s[i]))
  }

  lemma ToLowerIdempotent(s: string)
    ensures ToLower(ToLower(s)) == ToLower(s)
  {
  }

  /** Lower-casing turns no character into white space and no white space
      into anything else. */
  lemma ToLowerSpaces(s: string)
    ensures forall i :: 0 <= i < |s| ==> (IsSpace(ToLower(s)[i]) <==> IsSpace(s[i]))
  {
  }

  /** Lower-casing keeps a trimmed string trimmed. */
  lemma ToLowerTrimmed(s: string)
    requires Trimmed(s)
    ensures Trimmed(ToLower(s))
  {
    ToLowerSpaces(s);
  }

  /** `s.startsWith(p)`. */
  predicate StartsWith(s: string, p: string)
  {
    |p| <= |s| && s[..|p|] == p
  }

  /** `s.includes(q)`, searched left to right. */
  predicate Contains(s: string, q: string)
  {
    StartsWith(s, q) || (s != [] && Contains(s[1..], q))
  }

  /** `q` occurs in `s` starting at position `i`. */
  predicate OccursAt(s: string, q: string, i: int)
  {
    0 <= i && i + |q| <= |s| && s[i..i + |q|] == q
  }

  /** `includes` finds `q` exactly when it occurs at some position of `s`. */
  lemma {:induction false} ContainsAt(s: string, q: string)
    ensures Contains(s, q) <==> exists i :: OccursAt(s, q, i)
  {
    if s == [] {
      if Contains(s, q) {
        assert OccursAt(s, q, 0);
      }
      if exists i :: OccursAt(s, q, i) {
        var i :| OccursAt(s, q, i);
        assert StartsWith(s, q);
      }
    } else {
      ContainsAt(s[1..], q);
      if Contains(s[1..], q) {
        var i :| OccursAt(s[1..], q, i);
        assert s[1..][i..i + |q|] == s[i + 1..i + 1 + |q|];
        assert OccursAt(s, q, i + 1);
      }
      if StartsWith(s, q) {
        assert OccursAt(s, q, 0);
      }
      if exists i :: OccursAt(s, q, i) {
        var i :| OccursAt(s, q, i);
        if i == 0 {
          assert StartsWith(s, q);
        } else {
          assert s[1..][i - 1..i - 1 + |q|] == s[i..i + |q|];
          assert OccursAt(s[1..], q, i - 1);
        }
      }
    }
  }

  /** Every string includes itself. */
  lemma ContainsSelf(s: string)
    ensures Contains(s, s)
  {
    assert s[..|s|] == s;
  }

  /** Every string includes the empty string. */
  lemma ContainsEmpty(s: string)
    ensures Contains(s, "")
  {
  }

  /** Index of the first white-space character, or `|s|` when there is none. */
  function SpaceIndex(s: string): (k: nat)
    ensures k <= |s|
    ensures k < |s| ==> IsSpace(s[k])
    ensures NoSpace(s[..k])
  {
    if s == [] || IsSpace(s[0]) then 0
    else
      var k := SpaceIndex(s[1..]);
      assert s[..k + 1] == [s[0]] + s[1..][..k];
      k + 1
  }

  /** `s.split(/\s+/)`: the pieces between maximal runs of white space (a run at
      either end gives an empty first or last piece; `""` gives `[""]`). */
  function Split(s: string): (parts: seq<string>)
    ensures |parts| >= 1
    ensures forall i :: 0 <= i < |parts| ==> NoSpace(parts[i])
    decreases |s|
  {
    var k := SpaceIndex(s);
    if k == |s| then
      assert s[..k] == s;
      [s]
    else
      var t := TrimStart(s[k..]);
      [s[..k]] + Split(t)
  }

  /** `parts.join(sep)`. */
  function Join(parts: seq<string>, sep: string): string
  {
    if |parts| == 0 then ""
    else if |parts| == 1 then parts[0]
    else parts[0] + sep + Join(parts[1..], sep)
  }

  /** Each maximal run of white space replaced by a single space: an independent
      description of what splitting on `/\s+/` and joining with " " does. */
  function Collapse(s: string): (r: string)
    ensures |r| <= |s|
    decreases |s|
  {
    if s == [] then []
    else if IsSpace(s[0]) then
      [' '] + Collapse(TrimStart(s))
    else [s[0]] + Collapse(s[1..])
  }

  lemma JoinCons(w: string, parts: seq<string>, sep: string)
    requires |parts| >= 1
    ensures Join([w] + parts, sep) == w + sep + Join(parts, sep)
  {
    assert ([w] + parts)[1..] == parts;
  }

  lemma SplitOneWord(s: string)
    requires SpaceIndex(s) == |s|
    ensures Split(s) == [s]
  {
    assert s[..|s|] == s;
  }

  lemma SplitUnfold(s: string)
    requires SpaceIndex(s) < |s|
    ensures Split(s) == [s[..SpaceIndex(s)]] + Split(TrimStart(s[SpaceIndex(s)..]))
  {
  }

  lemma CollapseSpaceStart(u: string)
    requires u != [] && IsSpace(u[0])
    ensures Collapse(u) == [' '] + Collapse(TrimStart(u))
  {
  }

  lemma AppendAssoc<T>(a: seq<T>, b: seq<T>, c: seq<T>)
    ensures a + (b + c) == (a + b) + c
  {
  }

  /** A space-free prefix is copied unchanged by `Collapse`. */
  lemma {:induction false} CollapseSplitAt(s: string, k: nat)
    requires k <= |s| && NoSpace(s[..k])
    ensures Collapse(s) == s[..k] + Collapse(s[k..])
  {
    if k > 0 {
      assert s[1..][..k - 1] == s[..k][1..];
      CollapseSplitAt(s[1..], k - 1);
      CollapseSplitStep(s, k);
    }
  }

  /** The step of `CollapseSplitAt`: a first non-space character is copied. */
  lemma CollapseSplitStep(s: string, k: nat)
    requires 0 < k <= |s| && NoSpace(s[..k])
    requires Collapse(s[1..]) == s[1..][..k - 1] + Collapse(s[1..][k - 1..])
    ensures Collapse(s) == s[..k] + Collapse(s[k..])
  {
    assert !IsSpace(s[0]) by { assert s[..k][0] == s[0]; }
    assert s[1..][k - 1..] == s[k..];
    AppendAssoc([s[0]], s[1..][..k - 1], Collapse(s[k..]));
    assert [s[0]] + s[1..][..k - 1] == s[..k];
  }

  /** One induction step of `JoinSplit`: a leading word, then a run of white space. */
  lemma CollapseAfterWord(s: string)
    requires SpaceIndex(s) < |s|
    ensures Collapse(s) == s[..SpaceIndex(s)] + ([' '] + Collapse(TrimStart(s[SpaceIndex(s)..])))
  {
    var k := SpaceIndex(s);
    CollapseSplitAt(s, k);
    CollapseSpaceStart(s[k..]);
  }

  lemma JoinSplitStep(s: string, w: string, t: string, c: string)
    requires Split(s) == [w] + Split(t)
    requires Collapse(s) == w + ([' '] + c)
    requires Join(Split(t), " ") == c
    ensures Join(Split(s), " ") == Collapse(s)
  {
    JoinConsSpace(w, Split(t), c);
  }

  lemma JoinConsSpace(w: string, parts: seq<string>, c: string)
    requires |parts| >= 1 && Join(parts, " ") == c
    ensures Join([w] + parts, " ") == w + ([' '] + c)
  {
    JoinCons(w, parts, " ");
    assert w + " " + c == w + ([' '] + c);
  }

  /** Splitting on white-space runs and joining with single spaces collapses
      every run to one space. */
  lemma {:induction false} JoinSplit(s: string)
    ensures Join(Split(s), " ") == Collapse(s)
    decreases |s|
  {
    var k := SpaceIndex(s);
    if k == |s| {
      SplitOneWord(s);
      CollapseSplitAt(s, |s|);
      assert s[..|s|] == s && s[|s|..] == [];
    } else {
      var w, t := s[..k], TrimStart(s[k..]);
      SplitUnfold(s);
      CollapseAfterWord(s);
      JoinSplit(t);
      JoinSplitStep(s, w, t, Collapse(t));
    }
  }

  /** Trimming the start of a string that ends in a non-space keeps that end. */
  lemma {:induction false} TrimStartKeepsLast(u: string)
    requires u != [] && !IsSpace(u[|u| - 1])
    ensures TrimStart(u) != [] && TrimStart(u)[|TrimStart(u)| - 1] == u[|u| - 1]
  {
    if IsSpace(u[0]) {
      TrimStartKeepsLast(u[1..]);
    }
  }

  /** A trimmed, non-blank string splits into non-empty words. */
  lemma {:induction false} SplitTrimmedWords(s: string)
    requires Trimmed(s) && s != []
    ensures forall i :: 0 <= i < |Split(s)| ==> Split(s)[i] != []
    decreases |s|
  {
    var k := SpaceIndex(s);
    if k < |s| {
      var u := s[k..];
      assert u[|u| - 1] == s[|s| - 1];
      TrimStartKeepsLast(u);
      var t := TrimStart(u);
      SplitTrimmedWords(t);
      assert Split(s) == [s[..k]] + Split(t);
    }
  }

  lemma {:induction false} SpaceIndexAfterWord(w: string, t: string)
    requires NoSpace(w)
    ensures SpaceIndex(w + t) == |w| + SpaceIndex(t)
  {
    if w == [] {
      assert w + t == t;
    } else {
      assert (w + t)[1..] == w[1..] + t;
      SpaceIndexAfterWord(w[1..], t);
    }
  }

  lemma {:induction false} JoinNonEmptyStart(parts: seq<string>, sep: string)
    requires |parts| >= 1 && parts[0] != []
    ensures Join(parts, sep) != [] && Join(parts, sep)[0] == parts[0][0]
  {
  }

  /** Joining space-free, non-empty words with " " and splitting on white space
      gives the words back. */
  lemma {:induction false} SplitJoin(words: seq<string>)
    requires |words| >= 1
    requires forall i :: 0 <= i < |words| ==> words[i] != [] && NoSpace(words[i])
    ensures Split(Join(words, " ")) == words
  {
    var w := words[0];
    if |words| == 1 {
      SpaceIndexAfterWord(w, "");
      assert w + "" == w;
      SplitOneWord(w);
    } else {
      var rest := Join(words[1..], " ");
      var s := w + (" " + rest);
      JoinCons(w, words[1..], " ");
      assert [w] + words[1..] == words;
      assert Join(words, " ") == s;
      JoinNonEmptyStart(words[1..], " ");
      assert SpaceIndex(" " + rest) == 0;
      SpaceIndexAfterWord(w, " " + rest);
      assert s[..|w|] == w;
      assert s[|w|..] == " " + rest;
      assert TrimStart(" " + rest) == rest by {
        assert (" " + rest)[1..] == rest;
      }
      SplitUnfold(s);
      SplitJoin(words[1..]);
      assert Split(s) == [w] + words[1..];
    }
  }

  /** Joining all but the last part and then appending the last with `sep` is
      the join of all parts. */
  lemma {:induction false} JoinSnoc(parts: seq<string>, sep: string)
    requires |parts| >= 2
    ensures Join(parts[..|parts| - 1], sep) + sep + parts[|parts| - 1] == Join(parts, sep)
  {
    if |parts| > 2 {
      JoinSnoc(parts[1..], sep);
      assert parts[1..][..|parts| - 2] == parts[..|parts| - 1][1..];
    }
  }

  function DigitChar(d: nat): char
    requires d < 10
  {
    ['0', '1', '2', '3', '4', '5', '6', '7', '8', '9'][d]
  }

  /** `String(n)` for a whole number: its decimal digits, most significant first. */
  function NatToString(n: nat): (r: string)
    ensures r != []
    ensures forall i :: 0 <= i < |r| ==> '0' <= r[i] <= '9'
  {
    if n < 10 then [DigitChar(n)] else NatToString(n / 10) + [DigitChar(n % 10)]
  }

  /** The whole number a string of decimal digits denotes. */
  function DigitsValue(s: string): nat
    requires forall i :: 0 <= i < |s| ==> '0' <= s[i] <= '9'
  {
    if s == [] then 0 else DigitsValue(s[..|s| - 1]) * 10 + (s[|s| - 1] as int - '0' as int)
  }

  /** Reading back the decimal rendering of a whole number gives the number. */
  lemma {:induction false} NatToStringValue(n: nat)
    ensures DigitsValue(NatToString(n)) == n
  {
    if n >= 10 {
      var r := NatToString(n);
      assert r[..|r| - 1] == NatToString(n / 10);
      NatToStringValue(n / 10);
    }
  }
}
