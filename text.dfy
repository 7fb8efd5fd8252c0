/** String operations the handlers rely on, as JavaScript defines them:
    `String.prototype.trim`, `split` on a one-character separator, `join`,
    and the default ordering `Array.prototype.sort` uses on strings. */
module Text {

  /** The code points JavaScript's `trim` removes: WhiteSpace and LineTerminator. */
  predicate IsSpace(c: char) {
    || c == ' ' || c == '\t' || c == '\n' || c == '\r'
    || c == '\U{000B}' || c == '\U{000C}' || c == '\U{00A0}' || c == '\U{1680}'
    || ('\U{2000}' <= c <= '\U{200A}')
    || c == '\U{2028}' || c == '\U{2029}' || c == '\U{202F}' || c == '\U{205F}'
    || c == '\U{3000}' || c == '\U{FEFF}'
  }

  /** Every character is whitespace (the empty string included). */
  predicate IsBlank(s: string) {
    forall i :: 0 <= i < |s| ==> IsSpace(s[i])
  }

  /** Drops leading whitespace. */
  function TrimStart(s: string): (r: string)
    ensures |r| <= |s|
  {
    if s != [] && IsSpace(s[0]) then TrimStart(s[1..]) else s
  }

  /** Drops trailing whitespace. */
  function TrimEnd(s: string): (r: string)
    ensures |r| <= |s|
  {
    if s != [] && IsSpace(s[|s| - 1]) then TrimEnd(s[..|s| - 1]) else s
  }

  /** `TrimStart` gives a suffix of its input that does not start with whitespace,
      and only whitespace was dropped. */
  lemma {:induction false} TrimStartSuffix(s: string)
    ensures var r := TrimStart(s);
      && |r| <= |s| && r == s[|s| - |r|..]
      && (r == [] || !IsSpace(r[0]))
      && IsBlank(s[..|s| - |r|])
  {
    if s != [] && IsSpace(s[0]) {
      TrimStartSuffix(s[1..]);
    }
  }

  /** `TrimEnd` gives a prefix of its input that does not end with whitespace,
      and only whitespace was dropped. */
  lemma {:induction false} TrimEndPrefix(s: string)
    ensures var r := TrimEnd(s);
      && |r| <= |s| && r == s[..|r|]
      && (r == [] || !IsSpace(r[|r| - 1]))
      && IsBlank(s[|r|..])
  {
    if s != [] && IsSpace(s[|s| - 1]) {
      var init := s[..|s| - 1];
      TrimEndPrefix(init);
      var r := TrimEnd(init);
      assert r == init[..|r|] == s[..|r|];
      assert s[|r|..] == init[|r|..] + [s[|s| - 1]];
    }
  }

  /** `s.trim()`. */
  function Trim(s: string): (r: string)
  {
    TrimEnd(TrimStart(s))
  }

  /** The trimmed string is a contiguous piece of the input, cut only at whitespace,
      and it neither starts nor ends with whitespace. */
  lemma TrimIsSlice(s: string)
    ensures var r := Trim(s);
      && var k := |s| - |TrimStart(s)|;
      && k + |r| <= |s|
      && r == s[k..k + |r|]
      && IsBlank(s[..k]) && IsBlank(s[k + |r|..])
      && (r == [] || (!IsSpace(r[0]) && !IsSpace(r[|r| - 1])))
  {
    var t := TrimStart(s);
    TrimStartSuffix(s);
    var k := |s| - |t|;
    var r := TrimEnd(t);
    TrimEndPrefix(t);
    PrefixOfSuffix(s, k, t, r);
    assert r == Trim(s);
    assert IsBlank(s[k + |r|..]);
    if r != [] {
      assert r[0] == t[0];
    }
  }

  /** A prefix `r` of the suffix `t` of `s` starting at `k` is the slice of `s` at `k`, and
      what follows it in `t` is what follows it in `s`. */
  lemma PrefixOfSuffix(s: string, k: nat, t: string, r: string)
    requires k <= |s| && t == s[k..] && |r| <= |t| && r == t[..|r|]
    ensures k + |r| <= |s| && r == s[k..k + |r|] && t[|r|..] == s[k + |r|..]
  {
  }

  /** Every character of `s.trim()` is a character of `s`. */
  lemma TrimChars(s: string, c: char)
    requires c in Trim(s)
    ensures c in s
  {
    TrimIsSlice(s);
    var k := |s| - |TrimStart(s)|;
    var i :| 0 <= i < |Trim(s)| && Trim(s)[i] == c;
    assert s[k + i] == c;
  }

  /** A string that is blank trims to the empty string, and only such a string does. */
  lemma TrimEmptyIffBlank(s: string)
    ensures Trim(s) == [] <==> IsBlank(s)
  {
    TrimIsSlice(s);
    TrimStartSuffix(s);
    TrimEndPrefix(TrimStart(s));
    var k := |s| - |TrimStart(s)|;
    if Trim(s) == [] {
      assert k == |s|;
      forall i | 0 <= i < |s| ensures IsSpace(s[i]) {
        assert s[..k][i] == s[i];
      }
    } else {
      assert s[k] == Trim(s)[0];
    }
  }

  /** Trimming twice is trimming once. */
  lemma TrimIdempotent(s: string)
    ensures Trim(Trim(s)) == Trim(s)
  {
    TrimIsSlice(s);
    TrimIsSlice(Trim(s));
  }

  /** A string that neither starts nor ends with whitespace is its own trim. */
  lemma TrimOfTrimmed(s: string)
    requires s == [] || (!IsSpace(s[0]) && !IsSpace(s[|s| - 1]))
    ensures Trim(s) == s
  {
    if s != [] {
      assert TrimStart(s) == s;
    }
  }

  /** `s.split(sep)`: the pieces between occurrences of `sep`, always at least one. */
  function Split(s: string, sep: char): (r: seq<string>)
    ensures |r| >= 1
  {
    if s == [] then [[]]
    else
      var rest := Split(s[1..], sep);
      if s[0] == sep then [[]] + rest
      else [[s[0]] + rest[0]] + rest[1..]
  }

  /** No piece of a split contains the separator. */
  lemma {:induction false} SplitPiecesFree(s: string, sep: char)
    ensures forall i :: 0 <= i < |Split(s, sep)| ==> sep !in Split(s, sep)[i]
  {
    if s != [] {
      SplitPiecesFree(s[1..], sep);
    }
  }

  /** A split has one piece more than there are separators. */
  lemma {:induction false} SplitCount(s: string, sep: char)
    ensures |Split(s, sep)| == multiset(s)[sep] + 1
  {
    if s != [] {
      SplitCount(s[1..], sep);
      assert s == [s[0]] + s[1..];
    }
  }

  /** `parts.join(sep)`. */
  function Join(parts: seq<string>, sep: char): string
  {
    if |parts| == 0 then []
    else if |parts| == 1 then parts[0]
    else parts[0] + [sep] + Join(parts[1..], sep)
  }

  /** Joining the pieces of a split gives back the string. */
  lemma {:induction false} JoinSplit(s: string, sep: char)
    ensures Join(Split(s, sep), sep) == s
  {
    if s != [] {
      JoinSplit(s[1..], sep);
      var rest := Split(s[1..], sep);
      if s[0] != sep {
        var r := Split(s, sep);
        assert r[0] == [s[0]] + rest[0] && r[1..] == rest[1..];
        if |rest| > 1 {
          assert Join(rest, sep) == rest[0] + [sep] + Join(rest[1..], sep);
        }
      }
    }
  }

  /** One step of `Split` on a string with a known first character and rest. */
  lemma SplitCons(s: string, c: char, t: string, sep: char)
    requires s == [c] + t
    ensures c == sep ==> Split(s, sep) == [[]] + Split(t, sep)
    ensures c != sep ==> Split(s, sep) == [[c] + Split(t, sep)[0]] + Split(t, sep)[1..]
  {
    assert s[0] == c && s[1..] == t;
  }

  /** The inductive step of `SplitAppend`: if `u` splits as `t` then `b`, so does `[c] + u`
      as `[c] + t` then `b`. */
  lemma SplitAppendStep(su: string, st: string, c: char, u: string, t: string, b: string, sep: char)
    requires su == [c] + u && st == [c] + t
    requires Split(u, sep) == Split(t, sep) + Split(b, sep)
    ensures Split(su, sep) == Split(st, sep) + Split(b, sep)
  {
    SplitCons(su, c, u, sep);
    SplitCons(st, c, t, sep);
    ConsPieces(Split(su, sep), Split(st, sep), Split(u, sep), Split(t, sep), Split(b, sep), c == sep, [c]);
  }

  /** The sequence algebra behind `SplitAppendStep`: starting a new piece, or extending the
      first piece, commutes with appending more pieces. */
  lemma ConsPieces(x: seq<string>, y: seq<string>, ru: seq<string>, rt: seq<string>, rb: seq<string>,
                   newPiece: bool, p: string)
    requires ru == rt + rb && |rt| >= 1
    requires newPiece ==> x == [[]] + ru && y == [[]] + rt
    requires !newPiece ==> x == [p + ru[0]] + ru[1..] && y == [p + rt[0]] + rt[1..]
    ensures x == y + rb
  {
    if !newPiece {
      assert ru[0] == rt[0];
      assert ru[1..] == rt[1..] + rb;
    }
  }

  /** Splitting `a + [sep] + b` splits the two sides independently. */
  lemma {:induction false} SplitAppend(a: string, b: string, sep: char)
    ensures Split(a + [sep] + b, sep) == Split(a, sep) + Split(b, sep)
  {
    if a == [] {
      SplitCons(a + [sep] + b, sep, b, sep);
    } else {
      SplitAppend(a[1..], b, sep);
      assert a + [sep] + b == [a[0]] + (a[1..] + [sep] + b);
      SplitAppendStep(a + [sep] + b, a, a[0], a[1..] + [sep] + b, a[1..], b, sep);
    }
  }

  /** Splitting a join of separator-free pieces gives back the pieces (for a non-empty list;
      the empty list joins to "" which splits to [""]). */
  lemma {:induction false} SplitJoin(parts: seq<string>, sep: char)
    requires |parts| > 0
    requires forall i :: 0 <= i < |parts| ==> sep !in parts[i]
    ensures Split(Join(parts, sep), sep) == parts
  {
    if |parts| == 1 {
      SplitNoSep(parts[0], sep);
    } else {
      SplitJoin(parts[1..], sep);
      SplitAppend(parts[0], Join(parts[1..], sep), sep);
      SplitNoSep(parts[0], sep);
    }
  }

  /** A string without the separator splits into itself. */
  lemma {:induction false} SplitNoSep(s: string, sep: char)
    requires sep !in s
    ensures Split(s, sep) == [s]
  {
    if s != [] {
      SplitNoSep(s[1..], sep);
      assert s == [s[0]] + s[1..];
    }
  }

  /** Every character of the input is the separator or belongs to one of the pieces. */
  lemma {:induction false} SplitCovers(s: string, sep: char, i: nat)
    requires i < |s| && s[i] != sep
    ensures exists j :: 0 <= j < |Split(s, sep)| && s[i] in Split(s, sep)[j]
  {
    var r := Split(s, sep);
    if i == 0 {
      assert r[0][0] == s[0];
    } else {
      SplitCovers(s[1..], sep, i - 1);
      var rest := Split(s[1..], sep);
      var j :| 0 <= j < |rest| && s[i] in rest[j];
      if s[0] == sep {
        assert r[j + 1] == rest[j];
      } else if j == 0 {
        assert r[0] == [s[0]] + rest[0];
      } else {
        assert r[j] == rest[j];
      }
    }
  }

  /** Every character of a piece is a character of the input. */
  lemma {:induction false} SplitChars(s: string, sep: char, j: nat, c: char)
    requires j < |Split(s, sep)| && c in Split(s, sep)[j]
    ensures c in s
  {
    if s != [] {
      var rest := Split(s[1..], sep);
      if s[0] == sep {
        SplitChars(s[1..], sep, j - 1, c);
      } else if j == 0 {
        if c != s[0] {
          assert c in rest[0];
          SplitChars(s[1..], sep, 0, c);
        }
      } else {
        SplitChars(s[1..], sep, j, c);
      }
    }
  }

  /** The ordering JavaScript's default `sort` uses on strings: lexicographic by character code
      (a proper prefix comes first). */
  predicate LexLe(a: string, b: string) {
    a == [] || (b != [] && (a[0] < b[0] || (a[0] == b[0] && LexLe(a[1..], b[1..]))))
  }

  /** Any two strings are comparable. */
  lemma {:induction false} LexLeTotal(a: string, b: string)
    ensures LexLe(a, b) || LexLe(b, a)
  {
    if a != [] && b != [] && a[0] == b[0] {
      LexLeTotal(a[1..], b[1..]);
    }
  }

  /** Two strings each at most the other are equal. */
  lemma {:induction false} LexLeAntisymmetric(a: string, b: string)
    requires LexLe(a, b) && LexLe(b, a)
    ensures a == b
  {
    if a != [] && b != [] {
      LexLeAntisymmetric(a[1..], b[1..]);
      assert a == [a[0]] + a[1..] && b == [b[0]] + b[1..];
    }
  }
}
