/** String operations that the C++ and Python sources rely on: split, join, tokens, strip, C strings. */
module Text {

  datatype Option<+T> = None | Some(value: T)

  /** What Python's str.split() and str.strip() treat as blank. */
  predicate IsSpace(c: char) {
    c == ' ' || ('\t' <= c <= '\r')
  }

  predicate SpaceFree(s: string) {
    forall i :: 0 <= i < |s| ==> !IsSpace(s[i])
  }

  /** A token as str.split() returns it. */
  predicate IsWord(s: string) {
    s != "" && SpaceFree(s)
  }

  /** The text a C function sees when handed a buffer: everything before the first NUL. */
  function CStr(s: string): (r: string)
    ensures r <= s && '\0' !in r
    ensures if '\0' !in s then r == s else |r| < |s| && s[|r|] == '\0'
  {
    if s == "" || s[0] == '\0' then "" else [s[0]] + CStr(s[1..])
  }

  /** snprintf into a buffer of the given size keeps at most size - 1 characters. */
  function Snprintf(size: nat, s: string): (r: string)
    requires 0 < size
    ensures r <= s && |r| < size
    ensures if |s| < size then r == s else |r| == size - 1
  {
    if |s| < size then s else s[..size - 1]
  }

  /** Every occurrence of c replaced by d. */
  function Replace(s: string, c: char, d: char): (r: string)
    ensures |r| == |s|
    ensures forall i :: 0 <= i < |s| ==> r[i] == if s[i] == c then d else s[i]
  {
    seq(|s|, i requires 0 <= i < |s| => if s[i] == c then d else s[i])
  }

  /** The parts of a string that starts with x, from the parts of what follows. */
  function Prepend(x: char, c: char, rest: seq<string>): (r: seq<string>)
    requires rest != []
    ensures r != []
  {
    if x == c then [""] + rest else [[x] + rest[0]] + rest[1..]
  }

  /** Python's s.split(c). */
  function Split(s: string, c: char): (r: seq<string>)
    ensures r != []
  {
    if s == "" then [""] else Prepend(s[0], c, Split(s[1..], c))
  }

  /** Python's d.join(parts) for a one-character separator. */
  function Join(parts: seq<string>, d: char): string {
    if parts == [] then ""
    else if |parts| == 1 then parts[0]
    else parts[0] + [d] + Join(parts[1..], d)
  }

  lemma {:induction false} SplitFree(s: string, c: char)
    requires c !in s
    ensures Split(s, c) == [s]
  {
    if s == "" {
    } else {
      SplitFree(s[1..], c);
      assert [s[0]] + s[1..] == s;
    }
  }

  lemma PrependConcat(x: char, c: char, a: seq<string>, b: seq<string>)
    requires a != []
    ensures Prepend(x, c, a + b) == Prepend(x, c, a) + b
  {
  }

  lemma {:induction false} SplitAppend(a: string, b: string, c: char)
    ensures Split(a + [c] + b, c) == Split(a, c) + Split(b, c)
  {
    var s := a + [c] + b;
    if a == "" {
      assert s[1..] == b;
    } else {
      SplitAppend(a[1..], b, c);
      assert s[1..] == a[1..] + [c] + b;
      PrependConcat(a[0], c, Split(a[1..], c), Split(b, c));
    }
  }

  /** Splitting on c and joining with d is replacing c by d; with d == c it is the identity. */
  lemma {:induction false} JoinSplit(s: string, c: char, d: char)
    ensures Join(Split(s, c), d) == Replace(s, c, d)
  {
    if s == "" {
    } else {
      JoinSplit(s[1..], c, d);
      var rest := Split(s[1..], c);
      var r := Replace(s[1..], c, d);
      if s[0] == c {
        assert ([""] + rest)[1..] == rest;
        assert Join([""] + rest, d) == "" + [d] + r;
      } else {
        assert ([[s[0]] + rest[0]] + rest[1..])[1..] == rest[1..];
        assert Join([[s[0]] + rest[0]] + rest[1..], d) == [s[0]] + r;
      }
      assert Replace(s, c, d) == [if s[0] == c then d else s[0]] + r;
    }
  }

  /** Rewriting dots to slashes and splitting at slashes is splitting at dots. */
  lemma {:induction false} SplitReplaced(s: string)
    requires '/' !in s
    ensures Split(Replace(s, '.', '/'), '/') == Split(s, '.')
  {
    if s != "" {
      SplitReplaced(s[1..]);
      assert Replace(s, '.', '/')[1..] == Replace(s[1..], '.', '/');
    }
  }

  /** The last occurrence of c cuts a string in one way only. */
  lemma CutAtLast(a: string, b: string, a': string, b': string, c: char)
    requires a + [c] + b == a' + [c] + b'
    requires c !in b && c !in b'
    ensures a == a' && b == b'
  {
    var s := a + [c] + b;
    assert s[|a|] == c && s[|a'|] == c;
    forall i | |a| < i < |s| ensures s[i] != c {
      assert s[i] == b[i - |a| - 1];
    }
    forall i | |a'| < i < |s| ensures s[i] != c {
      assert s[i] == b'[i - |a'| - 1];
    }
    assert a == s[..|a|] && a' == s[..|a'|];
    assert b == s[|a| + 1..] && b' == s[|a'| + 1..];
  }

  /** Replacing c by d loses nothing on strings without d. */
  lemma ReplaceInjective(s: string, t: string, c: char, d: char)
    requires d !in s && d !in t
    requires Replace(s, c, d) == Replace(t, c, d)
    ensures s == t
  {
    forall i | 0 <= i < |s| ensures s[i] == t[i] {
      assert Replace(s, c, d)[i] == Replace(t, c, d)[i];
    }
  }

  /** Length of the longest blank-free prefix. */
  function WordLength(s: string): (n: nat)
    ensures n <= |s|
    ensures SpaceFree(s[..n])
    ensures n < |s| ==> IsSpace(s[n])
  {
    if s == "" || IsSpace(s[0]) then 0
    else
      var n := 1 + WordLength(s[1..]);
      assert s[..n] == [s[0]] + s[1..][..n - 1];
      n
  }

  /** Python's s.split(). */
  function Tokens(s: string): (r: seq<string>)
    ensures forall i :: 0 <= i < |r| ==> IsWord(r[i])
    decreases |s|
  {
    if s == "" then []
    else if IsSpace(s[0]) then Tokens(s[1..])
    else
      var n := WordLength(s);
      [s[..n]] + Tokens(s[n..])
  }

  lemma {:induction false} WordLengthIs(w: string, rest: string)
    requires SpaceFree(w)
    requires rest == "" || IsSpace(rest[0])
    ensures WordLength(w + rest) == |w|
  {
    if w == "" {
      assert w + rest == rest;
    } else {
      WordLengthIs(w[1..], rest);
      assert (w + rest)[1..] == w[1..] + rest;
    }
  }

  lemma TokensCons(w: string, rest: string)
    requires IsWord(w)
    requires rest == "" || IsSpace(rest[0])
    ensures Tokens(w + rest) == [w] + Tokens(rest)
  {
    WordLengthIs(w, rest);
    var s := w + rest;
    assert s[0] == w[0];
    assert s[..|w|] == w && s[|w|..] == rest;
  }

  lemma TokensAfterBlank(w: string, rest: string)
    requires IsWord(w)
    ensures Tokens(w + [' '] + rest) == [w] + Tokens(rest)
  {
    TokensCons(w, [' '] + rest);
    assert w + [' '] + rest == w + ([' '] + rest);
    assert ([' '] + rest)[1..] == rest;
  }

  /** Joining tokens with a blank and splitting again gives the tokens back. */
  lemma {:induction false} TokensJoin(words: seq<string>)
    requires forall i :: 0 <= i < |words| ==> IsWord(words[i])
    ensures Tokens(Join(words, ' ')) == words
  {
    if words == [] {
    } else if |words| == 1 {
      TokensCons(words[0], "");
      assert words[0] + "" == words[0];
    } else {
      TokensJoin(words[1..]);
      TokensAfterBlank(words[0], Join(words[1..], ' '));
    }
  }

  /** Python's s.strip(). */
  function Strip(s: string): string
    decreases |s|
  {
    if s == "" then ""
    else if IsSpace(s[0]) then Strip(s[1..])
    else if IsSpace(s[|s| - 1]) then Strip(s[..|s| - 1])
    else s
  }

  predicate Blank(s: string) {
    forall i :: 0 <= i < |s| ==> IsSpace(s[i])
  }

  /** Stripping takes the blanks off both ends, and nothing else. */
  lemma {:induction false} StripMeans(s: string) returns (before: string, after: string)
    ensures s == before + Strip(s) + after && Blank(before) && Blank(after)
    ensures Strip(s) != "" ==> !IsSpace(Strip(s)[0]) && !IsSpace(Strip(s)[|Strip(s)| - 1])
    decreases |s|
  {
    before, after := "", "";
    if s == "" {
    } else if IsSpace(s[0]) {
      before, after := StripMeans(s[1..]);
      before := [s[0]] + before;
    } else if IsSpace(s[|s| - 1]) {
      before, after := StripMeans(s[..|s| - 1]);
      after := after + [s[|s| - 1]];
    }
  }

  lemma {:induction false} TokensTrailingSpace(s: string, c: char)
    requires IsSpace(c)
    ensures Tokens(s + [c]) == Tokens(s)
    decreases |s|
  {
    if s == "" {
      assert ("" + [c])[1..] == "";
    } else if IsSpace(s[0]) {
      assert (s + [c])[1..] == s[1..] + [c];
      TokensTrailingSpace(s[1..], c);
    } else {
      var n := WordLength(s);
      var w, rest := s[..n], s[n..];
      assert s == w + rest && s + [c] == w + (rest + [c]);
      TokensCons(w, rest);
      TokensCons(w, rest + [c]);
      TokensTrailingSpace(rest, c);
    }
  }

  /** Stripping first makes no difference to the tokens. */
  lemma {:induction false} TokensStrip(s: string)
    ensures Tokens(Strip(s)) == Tokens(s)
    decreases |s|
  {
    if s == "" {
    } else if IsSpace(s[0]) {
      TokensStrip(s[1..]);
    } else if IsSpace(s[|s| - 1]) {
      TokensStrip(s[..|s| - 1]);
      TokensTrailingSpace(s[..|s| - 1], s[|s| - 1]);
      assert s[..|s| - 1] + [s[|s| - 1]] == s;
    }
  }

  predicate OccursAt(sub: string, s: string, k: int) {
    0 <= k <= |s| - |sub| && s[k..k + |sub|] == sub
  }

  /** Python's sub in s. */
  predicate Contains(sub: string, s: string) {
    exists k | 0 <= k <= |s| :: OccursAt(sub, s, k)
  }

  /** One string is in another exactly when the other is it with something before and after. */
  lemma ContainsMeans(sub: string, s: string)
    ensures Contains(sub, s) <==> exists a: string, b: string :: s == a + sub + b
  {
    if Contains(sub, s) {
      var k :| 0 <= k <= |s| && OccursAt(sub, s, k);
      assert s == s[..k] + sub + s[k + |sub|..];
    }
    if a: string, b: string :| s == a + sub + b {
      assert OccursAt(sub, s, |a|);
    }
  }

  /** Strings of one length contain each other only when equal. */
  lemma ContainsSameLength(a: string, b: string)
    requires |a| == |b|
    ensures Contains(a, b) <==> a == b
  {
    assert b[0..0 + |a|] == b;
    assert OccursAt(a, b, 0) <==> a == b;
  }

  /** A string lacking a letter of sub does not contain sub. */
  lemma LacksLetter(sub: string, s: string, c: char)
    requires c in sub && c !in s
    ensures !Contains(sub, s)
  {
    var i :| 0 <= i < |sub| && sub[i] == c;
    forall k | 0 <= k <= |s| ensures !OccursAt(sub, s, k) {
      assert k <= |s| - |sub| ==> s[k..k + |sub|][i] == s[k + i];
    }
  }

  lemma ContainsPrefix(sub: string, rest: string)
    ensures Contains(sub, sub + rest)
  {
    assert (sub + rest)[0..0 + |sub|] == sub;
    assert OccursAt(sub, sub + rest, 0);
  }
}
