/** The JavaScript string operations the model relies on: `split` and `join`
    on a one-character separator, cutting at a marker, removing a character,
    and `trim() === ''`. */
module Text {

  /** `s.split(sep)` for a one-character separator: the pieces between separators,
      always at least one (`"".split(",")` is `[""]`). */
  function Split(s: string, sep: char): (parts: seq<string>)
    ensures |parts| >= 1
    ensures forall k :: 0 <= k < |parts| ==> sep !in parts[k]
    decreases |s|
  {
    if s == [] then [""]
    else if s[0] == sep then [""] + Split(s[1..], sep)
    else
      var rest := Split(s[1..], sep);
      [[s[0]] + rest[0]] + rest[1..]
  }

  /** `parts.join(sep)`; the empty list joins to the empty string. */
  function Join(parts: seq<string>, sep: char): string
    decreases |parts|
  {
    if parts == [] then ""
    else if |parts| == 1 then parts[0]
    else parts[0] + [sep] + Join(parts[1..], sep)
  }

  /** Joining the pieces of a split gives back the original text. */
  lemma {:induction false} JoinSplit(s: string, sep: char)
    ensures Join(Split(s, sep), sep) == s
    decreases |s|
  {
    if s == [] {
    } else if s[0] == sep {
      JoinSplit(s[1..], sep);
      var rest := Split(s[1..], sep);
      assert Split(s, sep) == [""] + rest;
      assert ([""] + rest)[1..] == rest;
      assert s == [sep] + s[1..];
    } else {
      JoinSplit(s[1..], sep);
      var rest := Split(s[1..], sep);
      var parts := [[s[0]] + rest[0]] + rest[1..];
      assert Split(s, sep) == parts;
      assert parts[1..] == rest[1..];
      if |rest| == 1 {
        assert Join(rest, sep) == rest[0];
      } else {
        assert Join(rest, sep) == rest[0] + [sep] + Join(rest[1..], sep);
      }
      assert s == [s[0]] + s[1..];
    }
  }

  /** A first piece free of the separator splits off on its own. */
  lemma {:induction false} SplitAfterPiece(a: string, sep: char, b: string)
    requires sep !in a
    ensures Split(a + [sep] + b, sep) == [a] + Split(b, sep)
    decreases |a|
  {
    if a == [] {
      assert a + [sep] + b == [sep] + b;
      assert ([sep] + b)[1..] == b;
    } else {
      var s := a + [sep] + b;
      assert s[0] == a[0];
      assert s[1..] == a[1..] + [sep] + b;
      SplitAfterPiece(a[1..], sep, b);
      assert [a[0]] + a[1..] == a;
    }
  }

  /** Splitting a join of separator-free pieces gives back the pieces. */
  lemma {:induction false} SplitJoin(parts: seq<string>, sep: char)
    requires |parts| >= 1
    requires forall k :: 0 <= k < |parts| ==> sep !in parts[k]
    ensures Split(Join(parts, sep), sep) == parts
    decreases |parts|
  {
    if |parts| == 1 {
      SplitWithoutSep(parts[0], sep);
    } else {
      SplitJoin(parts[1..], sep);
      SplitAfterPiece(parts[0], sep, Join(parts[1..], sep));
      assert [parts[0]] + parts[1..] == parts;
    }
  }

  /** Text without the separator is a single piece. */
  lemma {:induction false} SplitWithoutSep(s: string, sep: char)
    requires sep !in s
    ensures Split(s, sep) == [s]
    decreases |s|
  {
    if s != [] {
      SplitWithoutSep(s[1..], sep);
      assert [s[0]] + s[1..] == s;
    }
  }

  /** `s.split(sep).pop()`: the text after the last separator, or all of `s`. */
  function LastPiece(s: string, sep: char): string {
    var parts := Split(s, sep);
    parts[|parts| - 1]
  }

  /** A text splits into more than one piece exactly when it holds the separator. */
  lemma {:induction false} SplitMany(s: string, sep: char)
    ensures |Split(s, sep)| > 1 <==> sep in s
    decreases |s|
  {
    if s != [] {
      SplitMany(s[1..], sep);
      assert s == [s[0]] + s[1..];
    }
  }

  /** A text splits into one more piece than it holds separators. */
  lemma {:induction false} SplitCount(s: string, sep: char)
    ensures |Split(s, sep)| == multiset(s)[sep] + 1
    decreases |s|
  {
    if s != [] {
      SplitCount(s[1..], sep);
      assert s == [s[0]] + s[1..];
      assert multiset(s) == multiset([s[0]]) + multiset(s[1..]);
    }
  }

  /** The last piece ends `s`, and is all of `s` when `s` holds no separator. */
  lemma {:induction false} LastPieceEnds(s: string, sep: char)
    ensures |LastPiece(s, sep)| <= |s| && s[|s| - |LastPiece(s, sep)|..] == LastPiece(s, sep)
    ensures sep !in s ==> LastPiece(s, sep) == s
    decreases |s|
  {
    if s != [] {
      LastPieceEnds(s[1..], sep);
      SplitMany(s[1..], sep);
      assert s == [s[0]] + s[1..];
      if s[0] != sep && |Split(s[1..], sep)| == 1 {
        assert LastPiece(s, sep) == [s[0]] + LastPiece(s[1..], sep);
      } else {
        assert LastPiece(s, sep) == LastPiece(s[1..], sep);
      }
    }
  }

  /** When `s` holds a separator, the character before the last piece is one. */
  lemma {:induction false} LastPieceAfterSep(s: string, sep: char)
    requires sep in s
    ensures |LastPiece(s, sep)| < |s| && s[|s| - |LastPiece(s, sep)| - 1] == sep
    decreases |s|
  {
    SplitMany(s[1..], sep);
    LastPieceEnds(s[1..], sep);
    if sep in s[1..] {
      LastPieceAfterSep(s[1..], sep);
      assert LastPiece(s, sep) == LastPiece(s[1..], sep);
    } else {
      assert s[0] == sep;
      assert LastPiece(s, sep) == LastPiece(s[1..], sep) == s[1..];
    }
  }

  /** The last piece holds no separator and ends `s`; when `s` holds a separator,
      the character before the last piece is that separator. */
  lemma LastPieceShape(s: string, sep: char)
    ensures sep !in LastPiece(s, sep)
    ensures |LastPiece(s, sep)| <= |s| && s[|s| - |LastPiece(s, sep)|..] == LastPiece(s, sep)
    ensures sep in s ==> |LastPiece(s, sep)| < |s| && s[|s| - |LastPiece(s, sep)| - 1] == sep
    ensures sep !in s ==> LastPiece(s, sep) == s
  {
    LastPieceEnds(s, sep);
    if sep in s {
      LastPieceAfterSep(s, sep);
    }
  }

  /** `s.split(' (')[0]`: the text before the first occurrence of " (", or all of `s`. */
  function BeforeParen(s: string): (r: string)
    ensures |r| <= |s| && s[..|r|] == r
    ensures forall i :: 0 <= i < |r| - 1 ==> !(r[i] == ' ' && r[i + 1] == '(')
    ensures |r| < |s| ==> |r| + 1 < |s| && s[|r|] == ' ' && s[|r| + 1] == '('
    decreases |s|
  {
    if |s| < 2 then s
    else if s[0] == ' ' && s[1] == '(' then ""
    else [s[0]] + BeforeParen(s[1..])
  }

  /** The cut falls at the first " (": text before it that holds none is kept whole. */
  lemma {:induction false} BeforeParenAt(a: string, b: string)
    requires forall i :: 0 <= i < |a| - 1 ==> !(a[i] == ' ' && a[i + 1] == '(')
    ensures BeforeParen(a + " (" + b) == a
    decreases |a|
  {
    if a != [] {
      assert (a + " (" + b)[1..] == a[1..] + " (" + b;
      BeforeParenAt(a[1..], b);
    }
  }

  /** `s.replace(/"/g, '')`. */
  function RemoveQuotes(s: string): (r: string)
    ensures '"' !in r
    ensures multiset(r) == multiset(s)[ '"' := 0 ]
    decreases |s|
  {
    if s == [] then ""
    else
      var rest := RemoveQuotes(s[1..]);
      assert s == [s[0]] + s[1..];
      if s[0] == '"' then rest else [s[0]] + rest
  }

  /** Quote removal works character by character: a quote is dropped, any
      other character is kept. */
  lemma RemoveQuotesChar(c: char)
    ensures RemoveQuotes([c]) == if c == '"' then "" else [c]
  {
    assert [c][1..] == [];
  }

  /** Quote removal keeps the order of what remains: it distributes over
      concatenation. */
  lemma {:induction false} RemoveQuotesConcat(a: string, b: string)
    ensures RemoveQuotes(a + b) == RemoveQuotes(a) + RemoveQuotes(b)
    decreases |a|
  {
    if a == [] {
      assert a + b == b;
    } else {
      assert (a + b)[1..] == a[1..] + b;
      RemoveQuotesConcat(a[1..], b);
    }
  }

  /** The characters `String.prototype.trim` removes: white space and line terminators. */
  predicate IsJsWhitespace(ch: char) {
    ch == '\t' || ch == '\n' || ch == '\U{B}' || ch == '\U{C}' || ch == '\r' || ch == ' '
    || ch == '\U{A0}' || ch == '\U{1680}' || ('\U{2000}' <= ch <= '\U{200A}')
    || ch == '\U{2028}' || ch == '\U{2029}' || ch == '\U{202F}' || ch == '\U{205F}'
    || ch == '\U{3000}' || ch == '\U{FEFF}'
  }

  /** `s.trim() === ''`. */
  predicate IsBlank(s: string) {
    forall i :: 0 <= i < |s| ==> IsJsWhitespace(s[i])
  }

  /** `toUpperCase` restricted to ASCII letters, the only ones it meets here. */
  function ToUpperAscii(s: string): (r: string)
    ensures |r| == |s|
    ensures forall i :: 0 <= i < |s| ==> ('a' <= s[i] <= 'z' ==> r[i] as int == s[i] as int - 32)
    ensures forall i :: 0 <= i < |s| ==> (!('a' <= s[i] <= 'z') ==> r[i] == s[i])
  {
    if s == [] then ""
    else
      var c := if 'a' <= s[0] <= 'z' then (s[0] as int - 32) as char else s[0];
      [c] + ToUpperAscii(s[1..])
  }
}
