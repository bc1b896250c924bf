/** The string operations the model relies on: `String.prototype.startsWith`
    and `String.prototype.split` with a one-character separator, used by the
    bearer-token guard, and the `trim()` sanitizer of the request rules. */
module Strings {
  import opened Common

  predicate StartsWith(s: string, prefix: string) {
    |prefix| <= |s| && s[..|prefix|] == prefix
  }

  /** The first position of `c` in `s`, if any. */
  function IndexOf(s: string, c: char): (r: Option<nat>)
    ensures r.Some? ==> r.value < |s| && s[r.value] == c && c !in s[..r.value]
    ensures r.None? ==> c !in s
  {
    if s == [] then None
    else if s[0] == c then Some(0)
    else match IndexOf(s[1..], c)
      case None => None
      case Some(i) => Some(i + 1)
  }

  /** `s.split(c)`: the pieces between occurrences of `c`, keeping empty pieces. */
  function Split(s: string, c: char): (r: seq<string>)
    ensures |r| >= 1
    ensures forall i :: 0 <= i < |r| ==> c !in r[i]
    decreases |s|
  {
    match IndexOf(s, c)
    case None => [s]
    case Some(i) => [s[..i]] + Split(s[i + 1..], c)
  }

  /** `pieces.join(c)`, the inverse of `Split`. */
  function Join(pieces: seq<string>, c: char): string
    requires |pieces| >= 1
  {
    if |pieces| == 1 then pieces[0] else pieces[0] + [c] + Join(pieces[1..], c)
  }

  lemma {:induction false} JoinSplit(s: string, c: char)
    ensures Join(Split(s, c), c) == s
    decreases |s|
  {
    match IndexOf(s, c)
    case None =>
    case Some(i) =>
      var rest := Split(s[i + 1..], c);
      var pieces := [s[..i]] + rest;
      assert Split(s, c) == pieces;
      assert pieces[1..] == rest;
      JoinSplit(s[i + 1..], c);
      calc {
        Join(pieces, c);
        s[..i] + [c] + Join(rest, c);
        s[..i] + [c] + s[i + 1..];
        { assert s == s[..i] + [s[i]] + s[i + 1..]; }
        s;
      }
  }

  lemma {:induction false} SplitJoin(pieces: seq<string>, c: char)
    requires |pieces| >= 1
    requires forall i :: 0 <= i < |pieces| ==> c !in pieces[i]
    ensures Split(Join(pieces, c), c) == pieces
  {
    if |pieces| > 1 {
      var s := Join(pieces, c);
      SplitJoin(pieces[1..], c);
      assert s == pieces[0] + [c] + Join(pieces[1..], c);
      assert s[|pieces[0]|] == c;
      assert s[..|pieces[0]|] == pieces[0];
      assert IndexOf(s, c) == Some(|pieces[0]|);
      assert s[|pieces[0]| + 1..] == Join(pieces[1..], c);
    } else {
      assert IndexOf(pieces[0], c).None?;
    }
  }

  /** A word with no separator followed by the separator and another such word
      splits back into exactly those two words. */
  lemma SplitTwoWords(first: string, second: string, c: char)
    requires c !in first && c !in second
    ensures Split(first + [c] + second, c) == [first, second]
  {
    SplitJoin([first, second], c);
    assert Join([first, second], c) == first + [c] + Join([second], c);
  }

  // ---- trim ----

  /** The characters `trim()` strips: ECMAScript's WhiteSpace (tab, vertical
      tab, form feed, space, no-break space, byte order mark and the Unicode
      space separators) and LineTerminator code points. */
  predicate IsSpace(c: char) {
    || ('\t' <= c <= '\r') || c == ' ' || c == '\U{00A0}' || c == '\U{1680}'
    || ('\U{2000}' <= c <= '\U{200A}') || c == '\U{2028}' || c == '\U{2029}'
    || c == '\U{202F}' || c == '\U{205F}' || c == '\U{3000}' || c == '\U{FEFF}'
  }

  /** `s` without its leading whitespace: a suffix of `s`. */
  function TrimStart(s: string): (r: string)
    ensures |r| <= |s| && r == s[|s| - |r|..]
    ensures r == [] || !IsSpace(r[0])
    ensures forall k :: 0 <= k < |s| - |r| ==> IsSpace(s[k])
  {
    if s != [] && IsSpace(s[0]) then
      var r := TrimStart(s[1..]);
      assert forall k :: 1 <= k < |s| - |r| ==> s[k] == s[1..][k - 1];
      r
    else s
  }

  /** `s` without its trailing whitespace: a prefix of `s`. */
  function TrimEnd(s: string): (r: string)
    ensures |r| <= |s| && r == s[..|r|]
    ensures r == [] || !IsSpace(r[|r| - 1])
    ensures forall k :: |r| <= k < |s| ==> IsSpace(s[k])
  {
    if s != [] && IsSpace(s[|s| - 1]) then
      var r := TrimEnd(s[..|s| - 1]);
      assert forall k :: |r| <= k < |s| - 1 ==> s[k] == s[..|s| - 1][k];
      r
    else s
  }

  /** The number of leading whitespace characters of `s`. */
  function Lead(s: string): nat {
    |s| - |TrimStart(s)|
  }

  /** `s.trim()`: the window of `s` after its leading whitespace that starts
      and ends with a character that is not whitespace. `TrimCutsWhitespace`
      shows that everything outside the window is whitespace. */
  function Trim(s: string): (r: string)
    ensures r == [] || (!IsSpace(r[0]) && !IsSpace(r[|r| - 1]))
    ensures Lead(s) + |r| <= |s| && r == s[Lead(s)..Lead(s) + |r|]
  {
    var t := TrimStart(s);
    var r := TrimEnd(t);
    TrimWindow(s, t, r, Lead(s));
    r
  }

  /** What `trim()` removes is whitespace only. */
  lemma TrimCutsWhitespace(s: string)
    ensures forall k :: 0 <= k < Lead(s) ==> IsSpace(s[k])
    ensures forall k :: Lead(s) + |Trim(s)| <= k < |s| ==> IsSpace(s[k])
  {
    var t := TrimStart(s);
    TrimWindow(s, t, TrimEnd(t), Lead(s));
  }

  /** The window arithmetic behind `Trim`: `t` is `s` after its `l` leading
      whitespace characters and `r` a prefix of `t` followed only by whitespace. */
  lemma TrimWindow(s: string, t: string, r: string, l: nat)
    requires l + |t| == |s| && t == s[l..]
    requires t == [] || !IsSpace(t[0])
    requires forall k :: 0 <= k < l ==> IsSpace(s[k])
    requires |r| <= |t| && r == t[..|r|]
    requires r == [] || !IsSpace(r[|r| - 1])
    requires forall k :: |r| <= k < |t| ==> IsSpace(t[k])
    ensures r == [] || (!IsSpace(r[0]) && !IsSpace(r[|r| - 1]))
    ensures l + |r| <= |s| && r == s[l..l + |r|]
    ensures forall k :: 0 <= k < l ==> IsSpace(s[k])
    ensures forall k :: l + |r| <= k < |s| ==> IsSpace(s[k])
  {
    PrefixOfSuffix(s, l, |r|);
    if r != [] {
      assert r[0] == t[0];
    }
    forall k | l + |r| <= k < |s|
      ensures IsSpace(s[k])
    {
      assert s[k] == t[k - l];
    }
  }

  lemma PrefixOfSuffix<T>(s: seq<T>, l: nat, n: nat)
    requires l + n <= |s|
    ensures s[l..][..n] == s[l..l + n]
  {
  }

  /** A string trims to "" exactly when it is all whitespace. */
  lemma TrimEmptyIff(s: string)
    ensures Trim(s) == [] <==> forall k :: 0 <= k < |s| ==> IsSpace(s[k])
  {
    TrimCutsWhitespace(s);
    if Trim(s) != [] {
      assert s[Lead(s)] == Trim(s)[0];
    }
  }

  /** A string that neither starts nor ends with whitespace is its own trim. */
  lemma {:induction false} TrimUnpadded(s: string)
    requires s == [] || (!IsSpace(s[0]) && !IsSpace(s[|s| - 1]))
    ensures Trim(s) == s
  {
    assert TrimStart(s) == s;
    assert TrimEnd(s) == s;
  }

  /** Trimming twice is trimming once. */
  lemma TrimIdempotent(s: string)
    ensures Trim(Trim(s)) == Trim(s)
  {
    TrimUnpadded(Trim(s));
  }

  lemma {:induction false} TrimStartSkips(pre: string, rest: string)
    requires forall k :: 0 <= k < |pre| ==> IsSpace(pre[k])
    requires rest == [] || !IsSpace(rest[0])
    ensures TrimStart(pre + rest) == rest
  {
    if pre == [] {
      assert pre + rest == rest;
    } else {
      assert (pre + rest)[0] == pre[0];
      assert (pre + rest)[1..] == pre[1..] + rest;
      TrimStartSkips(pre[1..], rest);
    }
  }

  lemma {:induction false} TrimEndSkips(rest: string, post: string)
    requires forall k :: 0 <= k < |post| ==> IsSpace(post[k])
    requires rest == [] || !IsSpace(rest[|rest| - 1])
    ensures TrimEnd(rest + post) == rest
  {
    if post == [] {
      assert rest + post == rest;
    } else {
      var n := |post| - 1;
      assert (rest + post)[|rest + post| - 1] == post[n];
      assert (rest + post)[..|rest + post| - 1] == rest + post[..n];
      TrimEndSkips(rest, post[..n]);
    }
  }

  /** Padding of whitespace on either side is exactly what `trim()` removes. */
  lemma TrimPadded(pre: string, word: string, post: string)
    requires forall k :: 0 <= k < |pre| ==> IsSpace(pre[k])
    requires forall k :: 0 <= k < |post| ==> IsSpace(post[k])
    requires word != [] && !IsSpace(word[0]) && !IsSpace(word[|word| - 1])
    ensures Trim(pre + word + post) == word
  {
    assert pre + word + post == pre + (word + post);
    TrimStartSkips(pre, word + post);
    TrimEndSkips(word, post);
  }

  /** A blank comment trims to nothing; a padded name loses only its padding. */
  lemma TrimExamples()
    ensures Trim("   ") == ""
    ensures Trim(" Toyota ") == "Toyota"
  {
    TrimEmptyIff("   ");
    assert " Toyota " == " " + "Toyota" + " ";
    TrimPadded(" ", "Toyota", " ");
  }
}
