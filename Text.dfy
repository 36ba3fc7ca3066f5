/** The JavaScript string and array built-ins the core relies on, stated over
    `seq<char>` and `seq<string>`: `Array.prototype.join`, `String.prototype.split`
    with a one-character separator, `String.prototype.trim`,
    `String.prototype.toLowerCase` and `Array.prototype.slice(0, n)`. */
module Text {

  /** `parts.join(sep)`: the parts with `sep` between neighbours. It begins
      with the first part, and is empty when there are no parts. */
  function Join(parts: seq<string>, sep: string): (r: string)
    ensures |parts| == 0 ==> r == []
    ensures |parts| > 0 ==> parts[0] <= r
  {
    if |parts| == 0 then ""
    else if |parts| == 1 then parts[0]
    else parts[0] + sep + Join(parts[1..], sep)
  }

  /** Joining five parts puts the separator between each neighbouring pair. */
  lemma JoinFive(parts: seq<string>, sep: string)
    requires |parts| == 5
    ensures Join(parts, sep) ==
      parts[0] + sep + (parts[1] + sep + (parts[2] + sep + (parts[3] + sep + parts[4])))
  {
    var tail := parts[1..];
    assert Join(tail[1..][1..], sep) == parts[3] + sep + parts[4] by {
      assert tail[1..][1..][1..] == [parts[4]];
    }
    assert Join(tail, sep) == parts[1] + sep + (parts[2] + sep + (parts[3] + sep + parts[4]));
  }

  /** `s.split(sep)` for a one-character separator: the maximal pieces between
      occurrences of `sep`. As in JavaScript, there is always at least one
      piece, and an empty piece stands wherever two separators meet or a
      separator begins or ends `s`. */
  function Split(s: string, sep: char): (r: seq<string>)
    ensures |r| >= 1
    ensures forall piece :: piece in r ==> sep !in piece
  {
    if s == [] then [""]
    else
      var rest := Split(s[1..], sep);
      if s[0] == sep then [""] + rest
      else [[s[0]] + rest[0]] + rest[1..]
  }

  /** Joining the pieces of a split with the separator gives back the string. */
  lemma {:induction false} JoinSplit(s: string, sep: char)
    ensures Join(Split(s, sep), [sep]) == s
  {
    if s != [] {
      var rest := Split(s[1..], sep);
      JoinSplit(s[1..], sep);
      if s[0] == sep {
        assert ([""] + rest)[1..] == rest;
      } else {
        var parts := [[s[0]] + rest[0]] + rest[1..];
        if |rest| > 1 {
          assert parts[1..] == rest[1..];
          calc {
            Join(parts, [sep]);
            [s[0]] + rest[0] + [sep] + Join(rest[1..], [sep]);
            [s[0]] + (rest[0] + [sep] + Join(rest[1..], [sep]));
            [s[0]] + Join(rest, [sep]);
          }
        }
        assert s == [s[0]] + s[1..];
      }
    }
  }

  /** A string without the separator splits into itself alone. */
  lemma {:induction false} SplitWithoutSeparator(a: string, sep: char)
    requires sep !in a
    ensures Split(a, sep) == [a]
  {
    if a != [] {
      SplitWithoutSeparator(a[1..], sep);
      assert [a[0]] + a[1..] == a;
    }
  }

  /** Splitting `a + sep + b`, where `a` holds no separator, yields `a` and
      then the pieces of `b`. */
  lemma {:induction false} SplitAfterPiece(a: string, b: string, sep: char)
    requires sep !in a
    ensures Split(a + [sep] + b, sep) == [a] + Split(b, sep)
  {
    var s := a + [sep] + b;
    if a == [] {
      assert s[0] == sep && s[1..] == b;
    } else {
      assert s[1..] == a[1..] + [sep] + b;
      SplitAfterPiece(a[1..], b, sep);
      assert [a[0]] + a[1..] == a;
    }
  }

  /** Splitting a join gives back the parts, provided no part holds the
      separator: `Split` and `Join` are inverse to each other. */
  lemma {:induction false} SplitJoin(parts: seq<string>, sep: char)
    requires |parts| >= 1
    requires forall p :: p in parts ==> sep !in p
    ensures Split(Join(parts, [sep]), sep) == parts
  {
    if |parts| == 1 {
      SplitWithoutSeparator(parts[0], sep);
    } else {
      SplitJoin(parts[1..], sep);
      SplitAfterPiece(parts[0], Join(parts[1..], [sep]), sep);
      assert [parts[0]] + parts[1..] == parts;
    }
  }

  /** The characters `String.prototype.trim` removes: the ECMAScript
      WhiteSpace (tab, vertical tab, form feed, BOM and the Unicode space
      separators) and LineTerminator (LF, CR, U+2028, U+2029) code points. */
  predicate IsSpace(c: char)
  {
    c == ' ' || c == '\t' || c == '\n' || c == '\r' || c == '\U{000B}' || c == '\U{000C}'
    || c == '\U{00A0}' || c == '\U{1680}' || ('\U{2000}' <= c <= '\U{200A}')
    || c == '\U{2028}' || c == '\U{2029}' || c == '\U{202F}' || c == '\U{205F}'
    || c == '\U{3000}' || c == '\U{FEFF}'
  }

  /** `s` minus its leading white space: a suffix of `s` that does not start with
      white space, and everything cut off is white space. */
  function TrimStart(s: string): (r: string)
    ensures |r| <= |s| && r == s[|s| - |r|..]
    ensures r == [] || !IsSpace(r[0])
    ensures forall k :: 0 <= k < |s| - |r| ==> IsSpace(s[k])
  {
    if s != [] && IsSpace(s[0]) then TrimStart(s[1..]) else s
  }

  /** `s` minus its trailing white space: a prefix of `s` that does not end with
      white space, and everything cut off is white space. */
  function TrimEnd(s: string): (r: string)
    ensures |r| <= |s| && r == s[..|r|]
    ensures r == [] || !IsSpace(r[|r| - 1])
    ensures forall k :: |r| <= k < |s| ==> IsSpace(s[k])
  {
    if s != [] && IsSpace(s[|s| - 1]) then TrimEnd(s[..|s| - 1]) else s
  }

  /** `s.trim()`: a piece of `s` that neither starts nor ends with white
      space. */
  function Trim(s: string): (r: string)
    ensures r == [] || (!IsSpace(r[0]) && !IsSpace(r[|r| - 1]))
    ensures |r| <= |s|
  {
    TrimEnd(TrimStart(s))
  }

  /** Trimming only cuts: every character of the trimmed string is one of
      `s`. */
  lemma TrimKeepsCharacters(s: string, c: char)
    requires c in Trim(s)
    ensures c in s
  {
    var t := TrimStart(s);
    var r := Trim(s);
    assert r == s[|s| - |t|..|s| - |t| + |r|];
  }

  /** A prefix of a suffix of `s` is a slice of `s`. */
  lemma PrefixOfSuffix(s: string, u: string, t: string)
    requires |u| <= |s| && u == s[|s| - |u|..]
    requires |t| <= |u| && t == u[..|t|]
    ensures t == s[|s| - |u|..|s| - |u| + |t|]
    ensures forall k :: |s| - |u| <= k < |s| ==> s[k] == u[k - (|s| - |u|)]
  {
  }

  /** `trim` keeps a contiguous piece of `s`, starting where the leading
      white space ends, and cuts nothing but white space from either end. */
  lemma TrimCutsOnlySpace(s: string)
    ensures var a, t := |s| - |TrimStart(s)|, Trim(s);
      a + |t| <= |s| && t == s[a..a + |t|]
      && (forall k :: 0 <= k < a ==> IsSpace(s[k]))
      && (forall k :: a + |t| <= k < |s| ==> IsSpace(s[k]))
  {
    var u := TrimStart(s);
    var t := TrimEnd(u);
    PrefixOfSuffix(s, u, t);
  }

  /** A string trims to the empty string exactly when it is all white space. */
  lemma TrimEmpty(s: string)
    ensures Trim(s) == [] <==> forall k :: 0 <= k < |s| ==> IsSpace(s[k])
  {
    var t := TrimStart(s);
    if Trim(s) == [] {
      forall k | |s| - |t| <= k < |s| ensures IsSpace(s[k]) {
        assert s[k] == t[k - (|s| - |t|)];
      }
    }
  }

  /** Trimming twice is the same as trimming once. */
  lemma TrimIdempotent(s: string)
    ensures Trim(Trim(s)) == Trim(s)
  {
    var t := Trim(s);
    assert TrimStart(t) == t;
  }

  /** The ASCII part of `toLowerCase`. */
  function LowerChar(c: char): char
  {
    if 'A' <= c <= 'Z' then (c as int - 'A' as int + 'a' as int) as char else c
  }

  /** `s.toLowerCase()`, character by character. */
  function Lower(s: string): (r: string)
    ensures |r| == |s|
    ensures forall i :: 0 <= i < |s| ==> r[i] == LowerChar(s[i]) && !('A' <= r[i] <= 'Z')
  {
    seq(|s|, i requires 0 <= i < |s| => LowerChar(s[i]))
  }

  /** `xs.slice(0, n)`: the first `n` elements, or all of them when there are
      fewer. */
  function Take<T>(xs: seq<T>, n: nat): (r: seq<T>)
    ensures |r| == if n < |xs| then n else |xs|
    ensures forall i :: 0 <= i < |r| ==> r[i] == xs[i]
  {
    if n < |xs| then xs[..n] else xs
  }
}
