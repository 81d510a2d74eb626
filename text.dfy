/** The string primitives the application takes from Python's `str`:
    `strip`, `rstrip(chars)`, `lower`, `split()`, `splitlines`, `sep.join`
    and the `in` substring test.

    Whitespace is the ASCII part of Python's `str.isspace` (space, `\t`,
    `\n`, `\v`, `\f`, `\r` and the separators `\x1c`-`\x1f`); line
    boundaries are the ASCII part of those `str.splitlines` uses. `Lower`
    folds only `A`-`Z`. */
module Text {

  predicate IsSpace(c: char) {
    c == ' ' || 9 <= c as int <= 13 || 28 <= c as int <= 31
  }

  /** Line boundaries of `str.splitlines` below U+0080: `\n`, `\v`, `\f`,
      `\r` (and `\r\n`) and `\x1c`-`\x1e`. Every one of them is whitespace. */
  predicate IsLineBreak(c: char) {
    10 <= c as int <= 13 || 28 <= c as int <= 30
  }

  lemma LineBreakIsSpace(c: char)
    ensures IsLineBreak(c) ==> IsSpace(c)
  {
  }

  /** No character of `s` satisfies `p`. */
  predicate Avoids(s: string, p: char -> bool) {
    forall i :: 0 <= i < |s| ==> !p(s[i])
  }

  predicate NoSpace(s: string) {
    Avoids(s, IsSpace)
  }

  predicate StartsWith(s: string, prefix: string) {
    |prefix| <= |s| && s[..|prefix|] == prefix
  }

  predicate EndsWith(s: string, suffix: string) {
    |suffix| <= |s| && s[|s| - |suffix|..] == suffix
  }

  /** Python's `sub in s`. */
  predicate Contains(s: string, sub: string)
    decreases |s|
  {
    StartsWith(s, sub) || (s != [] && Contains(s[1..], sub))
  }

  /** `sub` occurs in `s` starting at index `i`. */
  predicate OccursAt(s: string, sub: string, i: int) {
    0 <= i <= |s| - |sub| && s[i..i + |sub|] == sub
  }

  /** `Contains` holds exactly when `sub` occurs at some position of `s`. */
  lemma {:induction false} ContainsAt(s: string, sub: string)
    ensures Contains(s, sub) <==> exists i :: OccursAt(s, sub, i)
    decreases |s|
  {
    if s == [] {
      if Contains(s, sub) {
        assert OccursAt(s, sub, 0);
      }
    } else {
      ContainsAt(s[1..], sub);
      if StartsWith(s, sub) {
        assert OccursAt(s, sub, 0);
      } else if Contains(s[1..], sub) {
        var i :| OccursAt(s[1..], sub, i);
        assert s[i + 1..i + 1 + |sub|] == s[1..][i..i + |sub|];
        assert OccursAt(s, sub, i + 1);
      }
      if i :| OccursAt(s, sub, i) {
        if i > 0 {
          assert s[1..][i - 1..i - 1 + |sub|] == s[i..i + |sub|];
          assert OccursAt(s[1..], sub, i - 1);
        }
      }
    }
  }

  /** The index of the first character satisfying `p`, or `|s|` if none. */
  function IndexWhere(s: string, p: char -> bool): (i: nat)
    ensures i <= |s|
    ensures i < |s| ==> p(s[i])
    ensures forall j :: 0 <= j < i ==> !p(s[j])
  {
    if s == [] then 0
    else if p(s[0]) then 0
    else 1 + IndexWhere(s[1..], p)
  }

  /** `s.rstrip(chars)` where `drop` tells which characters are in `chars`. */
  function TrimEnd(s: string, drop: char -> bool): (r: string)
    ensures |r| <= |s| && r == s[..|r|]
    ensures r == [] || !drop(r[|r| - 1])
    ensures forall i :: |r| <= i < |s| ==> drop(s[i])
    decreases |s|
  {
    if s != [] && drop(s[|s| - 1]) then TrimEnd(s[..|s| - 1], drop) else s
  }

  /** `s.lstrip(chars)` where `drop` tells which characters are in `chars`. */
  function TrimStart(s: string, drop: char -> bool): (r: string)
    ensures |r| <= |s| && r == s[|s| - |r|..]
    ensures r == [] || !drop(r[0])
    ensures forall i :: 0 <= i < |s| - |r| ==> drop(s[i])
    decreases |s|
  {
    if s != [] && drop(s[0]) then TrimStart(s[1..], drop) else s
  }

  /** `s.strip()` */
  function Strip(s: string): (r: string)
    ensures r == [] || (!IsSpace(r[0]) && !IsSpace(r[|r| - 1]))
  {
    var e := TrimEnd(s, IsSpace);
    var r := TrimStart(e, IsSpace);
    assert r != [] ==> r[|r| - 1] == e[|e| - 1];
    r
  }

  /** `strip()` only removes characters: a property every character of `s`
      lacks, every character of `s.strip()` lacks too. */
  lemma StripKeepsAbsent(s: string, p: char -> bool)
    requires Avoids(s, p)
    ensures Avoids(Strip(s), p)
  {
    var e := TrimEnd(s, IsSpace);
    assert forall i :: 0 <= i < |e| ==> e[i] == s[i];
    var r := TrimStart(e, IsSpace);
    assert forall i :: 0 <= i < |r| ==> r[i] == e[|e| - |r| + i];
  }

  /** A string that `strip()` leaves as it is. */
  predicate IsStripped(s: string) {
    s == [] || (!IsSpace(s[0]) && !IsSpace(s[|s| - 1]))
  }

  lemma StripStripped(s: string)
    requires IsStripped(s)
    ensures Strip(s) == s
  {
  }

  function LowerChar(c: char): char {
    if 'A' <= c <= 'Z' then (c as int + 32) as char else c
  }

  predicate IsUpperChar(c: char) {
    'A' <= c <= 'Z'
  }

  predicate IsLowerCase(s: string) {
    Avoids(s, IsUpperChar)
  }

  /** `s.lower()`, restricted to ASCII letters. */
  function Lower(s: string): (r: string)
    ensures |r| == |s|
    ensures forall i :: 0 <= i < |s| ==> r[i] == LowerChar(s[i])
    ensures IsLowerCase(r)
  {
    seq(|s|, i requires 0 <= i < |s| => LowerChar(s[i]))
  }

  lemma LowerOfLowerCase(s: string)
    requires IsLowerCase(s)
    ensures Lower(s) == s
  {
  }

  /** `s.split()`: the maximal runs of non-whitespace characters, in order. */
  function Words(s: string): (ws: seq<string>)
    ensures forall k :: 0 <= k < |ws| ==> ws[k] != [] && NoSpace(ws[k])
    decreases |s|
  {
    if s == [] then []
    else if IsSpace(s[0]) then Words(s[1..])
    else
      var n := IndexWhere(s, IsSpace);
      [s[..n]] + Words(s[n..])
  }

  /** `len(s.split())` */
  function WordCount(s: string): nat {
    |Words(s)|
  }

  /** A string without whitespace splits into itself alone (or into nothing). */
  lemma {:induction false} WordsOfNoSpace(s: string)
    requires NoSpace(s)
    ensures Words(s) == if s == [] then [] else [s]
  {
    if s != [] {
      var n := IndexWhere(s, IsSpace);
      assert n == |s|;
      assert s[..n] == s;
      assert s[n..] == [];
    }
  }

  /** The words of `s` avoid whatever `s` avoids. */
  lemma {:induction false} WordsAvoid(s: string, p: char -> bool)
    requires Avoids(s, p)
    ensures forall k :: 0 <= k < |Words(s)| ==> Avoids(Words(s)[k], p)
    decreases |s|
  {
    if s != [] {
      if IsSpace(s[0]) {
        WordsAvoid(s[1..], p);
      } else {
        var n := IndexWhere(s, IsSpace);
        WordsAvoid(s[n..], p);
        assert Words(s) == [s[..n]] + Words(s[n..]);
      }
    }
  }

  /** `sep.join(parts)` */
  function Join(sep: string, parts: seq<string>): string
    decreases |parts|
  {
    if parts == [] then []
    else if |parts| == 1 then parts[0]
    else parts[0] + sep + Join(sep, parts[1..])
  }

  /** A join is at least as long as its first part. */
  lemma JoinKeepsFirst(sep: string, parts: seq<string>)
    requires parts != []
    ensures |Join(sep, parts)| >= |parts[0]|
  {
  }

  /** Joining creates no character that neither the separator nor the parts
      hold. */
  lemma {:induction false} JoinAvoids(sep: string, parts: seq<string>, p: char -> bool)
    requires Avoids(sep, p)
    requires forall k :: 0 <= k < |parts| ==> Avoids(parts[k], p)
    ensures Avoids(Join(sep, parts), p)
    decreases |parts|
  {
    if |parts| > 1 {
      JoinAvoids(sep, parts[1..], p);
      var rest := Join(sep, parts[1..]);
      assert Join(sep, parts) == parts[0] + sep + rest;
      forall i | 0 <= i < |Join(sep, parts)|
        ensures !p(Join(sep, parts)[i])
      {
        if i < |parts[0]| {
        } else if i < |parts[0]| + |sep| {
          assert Join(sep, parts)[i] == sep[i - |parts[0]|];
        } else {
          assert Join(sep, parts)[i] == rest[i - |parts[0]| - |sep|];
        }
      }
    }
  }

  /** The pieces of `s` between the characters satisfying `isSep`; there is
      always at least one piece, and no piece holds a separator. */
  function Split(s: string, isSep: char -> bool): (ps: seq<string>)
    ensures |ps| >= 1
    ensures forall k :: 0 <= k < |ps| ==> Avoids(ps[k], isSep)
    decreases |s|
  {
    var i := IndexWhere(s, isSep);
    if i == |s| then [s] else [s[..i]] + Split(s[i + 1..], isSep)
  }

  /** The first separator of `p + [c] + rest` is the `c` after `p`. */
  lemma IndexOfSeparator(p: string, c: char, rest: string, isSep: char -> bool)
    requires isSep(c)
    requires Avoids(p, isSep)
    ensures IndexWhere(p + [c] + rest, isSep) == |p|
  {
    var s := p + [c] + rest;
    assert s[|p|] == c;
  }

  /** Splitting on a separator undoes joining with it, as long as the parts
      themselves hold no separator. */
  lemma {:induction false} SplitJoin(c: char, parts: seq<string>, isSep: char -> bool)
    requires isSep(c)
    requires parts != []
    requires forall k :: 0 <= k < |parts| ==> Avoids(parts[k], isSep)
    ensures Split(Join([c], parts), isSep) == parts
    decreases |parts|
  {
    var s := Join([c], parts);
    var p := parts[0];
    if |parts| == 1 {
      assert IndexWhere(s, isSep) == |s|;
    } else {
      SplitJoin(c, parts[1..], isSep);
      var rest := Join([c], parts[1..]);
      assert s == p + [c] + rest;
      IndexOfSeparator(p, c, rest, isSep);
      assert s[..|p|] == p;
      assert s[|p| + 1..] == rest;
    }
  }

  /** Appending text that holds no separator extends the last piece. */
  lemma {:induction false} SplitAppend(s: string, t: string, isSep: char -> bool)
    requires Avoids(t, isSep)
    ensures var ps := Split(s, isSep);
      Split(s + t, isSep) == ps[..|ps| - 1] + [ps[|ps| - 1] + t]
    decreases |s|
  {
    var i := IndexWhere(s, isSep);
    var st := s + t;
    if i == |s| {
      assert forall j :: 0 <= j < |st| ==> !isSep(st[j]) by {
        forall j | 0 <= j < |st| ensures !isSep(st[j]) {
          if j >= |s| {
            assert st[j] == t[j - |s|];
          }
        }
      }
      assert IndexWhere(st, isSep) == |st|;
    } else {
      assert st[i] == s[i];
      assert IndexWhere(st, isSep) == i;
      assert st[..i] == s[..i];
      assert st[i + 1..] == s[i + 1..] + t;
      SplitAppend(s[i + 1..], t, isSep);
    }
  }

  /** A join begins with its first part. */
  lemma JoinStartsWithFirst(sep: string, parts: seq<string>)
    requires parts != []
    ensures StartsWith(Join(sep, parts), parts[0])
  {
    if |parts| > 1 {
      assert Join(sep, parts) == parts[0] + (sep + Join(sep, parts[1..]));
    }
  }

  /** A join ends with its last part. */
  lemma {:induction false} JoinEndsWithLast(sep: string, parts: seq<string>)
    requires parts != []
    ensures EndsWith(Join(sep, parts), parts[|parts| - 1])
    decreases |parts|
  {
    if |parts| > 1 {
      JoinEndsWithLast(sep, parts[1..]);
      var rest := Join(sep, parts[1..]);
      var s := Join(sep, parts);
      assert s == (parts[0] + sep) + rest;
      assert s[|s| - |rest|..] == rest;
      var last := parts[|parts| - 1];
      assert rest[|rest| - |last|..] == last;
      assert s[|s| - |last|..] == rest[|rest| - |last|..];
    }
  }

  /** A join of a part and a non-empty rest: the part, the separator, then
      the join of the rest. */
  lemma JoinCons(sep: string, first: string, rest: seq<string>)
    requires rest != []
    ensures Join(sep, [first] + rest) == first + sep + Join(sep, rest)
  {
    assert ([first] + rest)[1..] == rest;
  }

  /** A concatenation ends with its second half. */
  lemma EndsWithConcat(a: string, b: string)
    ensures EndsWith(a + b, b)
  {
    assert (a + b)[|a|..] == b;
  }

  /** A suffix of a suffix is a suffix. */
  lemma EndsWithTrans(a: string, b: string, c: string)
    requires EndsWith(a, b) && EndsWith(b, c)
    ensures EndsWith(a, c)
  {
    assert a[|a| - |c|..] == b[|b| - |c|..];
  }

  /** The characters of a suffix, read at their places in the string. */
  lemma EndsWithAt(s: string, suffix: string)
    requires EndsWith(s, suffix)
    ensures forall i :: |s| - |suffix| <= i < |s| ==> s[i] == suffix[i - (|s| - |suffix|)]
  {
    forall i | |s| - |suffix| <= i < |s|
      ensures s[i] == suffix[i - (|s| - |suffix|)]
    {
      assert s[|s| - |suffix|..][i - (|s| - |suffix|)] == s[i];
    }
  }

  /** Two strings that avoid `p` concatenate to one that does. */
  lemma AvoidsConcatChars(a: string, b: string, p: char -> bool)
    requires Avoids(a, p) && Avoids(b, p)
    ensures Avoids(a + b, p)
  {
    assert forall i :: |a| <= i < |a + b| ==> (a + b)[i] == b[i - |a|];
  }
}
