/**
 * ASCII string helpers shared by the generators: JavaScript's toLowerCase,
 * toUpperCase, trim, split(','), join, includes and endsWith, the two
 * regular-expression rewrites the model generator uses (`/_id$/` and
 * `/_([a-z])/g`), the default string order of Array.prototype.sort, and the
 * decimal rendering of a number inside a template literal.
 */
module Text {

  predicate IsUpper(c: char) { 'A' <= c <= 'Z' }

  predicate IsLower(c: char) { 'a' <= c <= 'z' }

  /** The white space String.prototype.trim removes, restricted to ASCII. */
  predicate IsSpace(c: char)
  {
    c == ' ' || c == '\t' || c == '\n' || c == '\r' || c as int == 11 || c as int == 12
  }

  function LowerChar(c: char): char
  {
    if IsUpper(c) then (c as int + 32) as char else c
  }

  function UpperChar(c: char): char
  {
    if IsLower(c) then (c as int - 32) as char else c
  }

  /** `s.toLowerCase()`: the same length, and no upper-case letter is left. */
  function ToLower(s: string): (r: string)
    ensures |r| == |s|
    ensures forall i :: 0 <= i < |r| ==> !IsUpper(r[i])
  {
    seq(|s|, i requires 0 <= i < |s| => LowerChar(s[i]))
  }

  /** `s.toUpperCase()`: the same length, and no lower-case letter is left. */
  function ToUpper(s: string): (r: string)
    ensures |r| == |s|
    ensures forall i :: 0 <= i < |r| ==> !IsLower(r[i])
  {
    seq(|s|, i requires 0 <= i < |s| => UpperChar(s[i]))
  }

  /** `s.charAt(0).toUpperCase() + s.slice(1)`. */
  function Capitalize(s: string): (r: string)
    ensures |r| == |s|
    ensures |s| > 0 ==> !IsLower(r[0]) && r[1..] == s[1..]
  {
    if s == [] then [] else [UpperChar(s[0])] + s[1..]
  }

  predicate StartsWith(s: string, prefix: string)
  {
    |prefix| <= |s| && s[..|prefix|] == prefix
  }

  /** `s.endsWith(suffix)`. */
  predicate EndsWith(s: string, suffix: string)
  {
    |suffix| <= |s| && s[|s| - |suffix|..] == suffix
  }

  /** A string starts with each of its prefixes. */
  lemma StartsWithConcat(pre: string, rest: string)
    ensures StartsWith(pre + rest, pre)
  {
    assert (pre + rest)[..|pre|] == pre;
  }

  /** A string ends with each of its suffixes. */
  lemma EndsWithConcat(pre: string, suf: string)
    ensures EndsWith(pre + suf, suf)
  {
    assert (pre + suf)[|pre + suf| - |suf|..] == suf;
  }

  /** `s.includes(sub)`. */
  predicate Contains(s: string, sub: string)
    decreases |s|
  {
    StartsWith(s, sub) || (s != [] && Contains(s[1..], sub))
  }

  /** A string contains every middle part it is assembled from. */
  lemma {:induction false} ContainsAt(s: string, pre: string, mid: string, post: string)
    requires s == pre + mid + post
    ensures Contains(s, mid)
    decreases |pre|
  {
    if pre == [] {
      assert s[..|mid|] == mid;
    } else {
      assert s[1..] == pre[1..] + mid + post;
      ContainsAt(s[1..], pre[1..], mid, post);
    }
  }

  /** Leading white space removed: what is left is a suffix of `s`. */
  function TrimStart(s: string): (r: string)
    ensures |r| <= |s| && r == s[|s| - |r|..]
    ensures r != [] ==> !IsSpace(r[0])
    decreases |s|
  {
    if s != [] && IsSpace(s[0]) then TrimStart(s[1..]) else s
  }

  /** Trailing white space removed: what is left is a prefix of `s`. */
  function TrimEnd(s: string): (r: string)
    ensures |r| <= |s| && r == s[..|r|]
    ensures r != [] ==> !IsSpace(r[|r| - 1])
    decreases |s|
  {
    if s != [] && IsSpace(s[|s| - 1]) then TrimEnd(s[..|s| - 1]) else s
  }

  /** `s.trim()`: no white space at either end, and every character left
      comes from `s`; TrimIsSlice says which slice of `s` it is. */
  function Trim(s: string): (r: string)
    ensures r != [] ==> !IsSpace(r[0]) && !IsSpace(r[|r| - 1])
    ensures forall c :: c in r ==> c in s
  {
    var t := TrimStart(s);
    var r := TrimEnd(t);
    assert r != [] ==> r[0] == t[0];
    assert forall c :: c in r ==> c in t;
    r
  }

  /** What TrimStart drops is white space. */
  lemma {:induction false} TrimStartDropsSpace(s: string)
    ensures forall k :: 0 <= k < |s| - |TrimStart(s)| ==> IsSpace(s[k])
    decreases |s|
  {
    if s != [] && IsSpace(s[0]) {
      TrimStartDropsSpace(s[1..]);
      assert forall k :: 1 <= k < |s| ==> s[k] == s[1..][k - 1];
    }
  }

  /** What TrimEnd drops is white space. */
  lemma {:induction false} TrimEndDropsSpace(s: string)
    ensures forall k :: |TrimEnd(s)| <= k < |s| ==> IsSpace(s[k])
    decreases |s|
  {
    if s != [] && IsSpace(s[|s| - 1]) {
      TrimEndDropsSpace(s[..|s| - 1]);
    }
  }

  /** `r` is the slice of `s` from `i`, with only white space before it and
      after it. */
  predicate SliceBetweenSpace(s: string, r: string, i: int)
  {
    0 <= i <= |s| - |r| && r == s[i..i + |r|] &&
    (forall k :: 0 <= k < i ==> IsSpace(s[k])) &&
    (forall k :: i + |r| <= k < |s| ==> IsSpace(s[k]))
  }

  /** The trimmed string is the slice of `s` between its leading and its
      trailing white space. */
  lemma TrimIsSlice(s: string)
    ensures exists i :: SliceBetweenSpace(s, Trim(s), i)
  {
    var t := TrimStart(s);
    var r := TrimEnd(t);
    TrimStartDropsSpace(s);
    TrimEndDropsSpace(t);
    var i := |s| - |t|;
    assert Trim(s) == r;
    assert r == s[i..i + |r|];
    assert forall k :: i + |r| <= k < |s| ==> s[k] == t[k - i];
    assert SliceBetweenSpace(s, r, i);
  }

  /** `s.split(sep)` for a one-character separator: never empty, and no
      piece holds the separator. */
  function Split(s: string, sep: char): (r: seq<string>)
    ensures |r| > 0
    ensures forall p :: p in r ==> sep !in p
    decreases |s|
  {
    if s == [] then [""]
    else
      var rest := Split(s[1..], sep);
      if s[0] == sep then [""] + rest
      else [[s[0]] + rest[0]] + rest[1..]
  }

  /** `parts.join(sep)`. */
  function Join(parts: seq<string>, sep: string): string
    decreases |parts|
  {
    if |parts| == 0 then ""
    else if |parts| == 1 then parts[0]
    else parts[0] + sep + Join(parts[1..], sep)
  }

  function CountChar(s: string, c: char): nat
    decreases |s|
  {
    if s == [] then 0 else (if s[0] == c then 1 else 0) + CountChar(s[1..], c)
  }

  lemma JoinConsHead(c: char, parts: seq<string>, sep: string)
    requires |parts| > 0
    ensures Join([[c] + parts[0]] + parts[1..], sep) == [c] + Join(parts, sep)
  {
    var q := [[c] + parts[0]] + parts[1..];
    if |parts| > 1 {
      assert q[1..] == parts[1..];
    }
  }

  /** Joining the pieces of a split with the same separator gives back the
      original string. */
  lemma {:induction false} JoinSplit(s: string, sep: char)
    ensures Join(Split(s, sep), [sep]) == s
    decreases |s|
  {
    if s != [] {
      JoinSplit(s[1..], sep);
      var rest := Split(s[1..], sep);
      if s[0] == sep {
        assert ([""] + rest)[1..] == rest;
      } else {
        JoinConsHead(s[0], rest, [sep]);
      }
      assert s == [s[0]] + s[1..];
    }
  }

  lemma {:induction false} SplitNoSeparator(p: string, sep: char)
    requires sep !in p
    ensures Split(p, sep) == [p]
    decreases |p|
  {
    if p != [] {
      SplitNoSeparator(p[1..], sep);
      assert p == [p[0]] + p[1..];
    }
  }

  lemma {:induction false} SplitAtSeparator(p: string, t: string, sep: char)
    requires sep !in p
    ensures Split(p + [sep] + t, sep) == [p] + Split(t, sep)
    decreases |p|
  {
    var s := p + [sep] + t;
    if p == [] {
      assert s[1..] == t;
    } else {
      assert s[1..] == p[1..] + [sep] + t;
      SplitAtSeparator(p[1..], t, sep);
      assert p == [p[0]] + p[1..];
    }
  }

  /** Splitting a join gives back the parts, provided none of them holds the
      separator: a joined list has no dangling or doubled separator. */
  lemma {:induction false} SplitJoin(parts: seq<string>, sep: char)
    requires |parts| > 0
    requires forall p :: p in parts ==> sep !in p
    ensures Split(Join(parts, [sep]), sep) == parts
    decreases |parts|
  {
    if |parts| == 1 {
      SplitNoSeparator(parts[0], sep);
    } else {
      SplitJoin(parts[1..], sep);
      SplitAtSeparator(parts[0], Join(parts[1..], [sep]), sep);
      assert parts == [parts[0]] + parts[1..];
    }
  }

  /** A split yields one piece more than there are separators, empty pieces
      included. */
  lemma {:induction false} SplitCount(s: string, sep: char)
    ensures |Split(s, sep)| == CountChar(s, sep) + 1
    decreases |s|
  {
    if s != [] {
      SplitCount(s[1..], sep);
    }
  }

  /** `s.replace(/_id$/, '')`: one trailing `_id` is removed, nothing else. */
  function StripIdSuffix(s: string): (r: string)
    ensures EndsWith(s, "_id") ==> r + "_id" == s
    ensures !EndsWith(s, "_id") ==> r == s
  {
    if EndsWith(s, "_id") then s[..|s| - 3] else s
  }

  /** `s[i]` and `s[i + 1]` are not an underscore and a lower-case letter. */
  predicate NoJointAt(s: string, i: int)
    requires 0 <= i < |s| - 1
  {
    !(s[i] == '_' && IsLower(s[i + 1]))
  }

  /** No underscore is directly followed by a lower-case letter. */
  predicate NoSnakeJoint(s: string)
  {
    forall i :: 0 <= i < |s| - 1 ==> NoJointAt(s, i)
  }

  /** A character in front of a joint-free string keeps it joint-free, unless
      it is an underscore and the string starts with a lower-case letter. */
  lemma NoJointCons(c: char, rest: string)
    requires NoSnakeJoint(rest)
    requires !(c == '_' && rest != [] && IsLower(rest[0]))
    ensures NoSnakeJoint([c] + rest)
  {
    var s := [c] + rest;
    forall i | 0 <= i < |s| - 1 ensures NoJointAt(s, i) {
      if i > 0 {
        assert NoJointAt(rest, i - 1);
        assert s[i] == rest[i - 1] && s[i + 1] == rest[i];
      }
    }
  }

  /** `s.replace(/_([a-z])/g, g => g[1].toUpperCase())`, scanning left to
      right as the global regular expression does. */
  function SnakeToCamel(s: string): (r: string)
    ensures NoSnakeJoint(r)
    ensures r != [] ==> s != [] && (IsLower(r[0]) ==> r[0] == s[0])
    decreases |s|
  {
    if |s| >= 2 && s[0] == '_' && IsLower(s[1]) then
      var rest := SnakeToCamel(s[2..]);
      NoJointCons(UpperChar(s[1]), rest);
      [UpperChar(s[1])] + rest
    else if s == [] then []
    else
      var rest := SnakeToCamel(s[1..]);
      NoJointCons(s[0], rest);
      [s[0]] + rest
  }

  /** A name with no `_x` joint is left as it is. */
  lemma {:induction false} SnakeToCamelIdentity(s: string)
    requires NoSnakeJoint(s)
    ensures SnakeToCamel(s) == s
    decreases |s|
  {
    if s != [] {
      var t := s[1..];
      forall i | 0 <= i < |t| - 1
        ensures NoJointAt(t, i)
      {
        assert NoJointAt(s, i + 1);
        assert t[i] == s[i + 1] && t[i + 1] == s[i + 2];
      }
      SnakeToCamelIdentity(t);
      if |s| >= 2 {
        assert NoJointAt(s, 0);
      }
    }
  }


  /** The rewrite splits at an underscore: the text before it is rewritten
      on its own, and so is the underscore with what follows. */
  lemma {:induction false} SnakeToCamelSplit(a: string, t: string)
    ensures SnakeToCamel(a + "_" + t) == SnakeToCamel(a) + SnakeToCamel("_" + t)
    decreases |a|
  {
    var s := a + "_" + t;
    if a == [] {
      assert s == "_" + t;
    } else if |a| >= 2 && a[0] == '_' && IsLower(a[1]) {
      var x, p, q := [UpperChar(a[1])], SnakeToCamel(a[2..]), SnakeToCamel("_" + t);
      assert SnakeToCamel(s) == x + (p + q) by {
        assert s[0] == a[0] && s[1] == a[1];
        assert s[2..] == a[2..] + "_" + t;
        SnakeToCamelSplit(a[2..], t);
      }
      assert SnakeToCamel(a) == x + p;
      assert x + (p + q) == (x + p) + q;
    } else {
      var x, p, q := [a[0]], SnakeToCamel(a[1..]), SnakeToCamel("_" + t);
      assert SnakeToCamel(s) == x + (p + q) by {
        assert s[0] == a[0] && s[1..] == a[1..] + "_" + t;
        assert |a| >= 2 ==> s[1] == a[1];
        assert |a| < 2 ==> s[1] == '_';
        SnakeToCamelSplit(a[1..], t);
      }
      assert SnakeToCamel(a) == x + p;
      assert x + (p + q) == (x + p) + q;
    }
  }

  /** The rewrite at an underscore: `_x` with `x` a lower-case letter
      becomes the upper-case `X`, any other underscore is kept, and the text
      on either side is rewritten on its own. */
  lemma SnakeToCamelAtUnderscore(a: string, t: string)
    ensures SnakeToCamel(a + "_" + t) ==
              SnakeToCamel(a) +
              (if t != [] && IsLower(t[0]) then [UpperChar(t[0])] + SnakeToCamel(t[1..])
               else "_" + SnakeToCamel(t))
  {
    SnakeToCamelSplit(a, t);
    var u := "_" + t;
    assert u[1..] == t;
    if t != [] {
      assert u[1] == t[0] && u[2..] == t[1..];
    }
  }

  /** The default comparison of Array.prototype.sort on two strings:
      character by character, a proper prefix first. */
  predicate LexLessEq(a: string, b: string)
    decreases |a|
  {
    a == [] || (b != [] && (a[0] < b[0] || (a[0] == b[0] && LexLessEq(a[1..], b[1..]))))
  }

  lemma {:induction false} LexTotal(a: string, b: string)
    ensures LexLessEq(a, b) || LexLessEq(b, a)
    decreases |a|
  {
    if a != [] && b != [] && a[0] == b[0] {
      LexTotal(a[1..], b[1..]);
    }
  }

  lemma {:induction false} LexAntisymmetric(a: string, b: string)
    requires LexLessEq(a, b) && LexLessEq(b, a)
    ensures a == b
    decreases |a|
  {
    if a != [] {
      LexAntisymmetric(a[1..], b[1..]);
      assert a == [a[0]] + a[1..] && b == [b[0]] + b[1..];
    }
  }

  function DigitChar(d: nat): char
    requires d < 10
  {
    ('0' as int + d) as char
  }

  /** The decimal digits a template literal prints for a natural number. */
  function NatToString(n: nat): (r: string)
    ensures |r| > 0
    ensures forall i :: 0 <= i < |r| ==> '0' <= r[i] <= '9'
    decreases n
  {
    if n < 10 then [DigitChar(n)] else NatToString(n / 10) + [DigitChar(n % 10)]
  }

  /** The number a string of decimal digits denotes. */
  function DigitsValue(s: string): nat
    requires forall i :: 0 <= i < |s| ==> '0' <= s[i] <= '9'
    decreases |s|
  {
    if s == [] then 0 else DigitsValue(s[..|s| - 1]) * 10 + (s[|s| - 1] as int - '0' as int)
  }

  /** NatToString prints exactly the number it is given. */
  lemma {:induction false} NatToStringValue(n: nat)
    ensures DigitsValue(NatToString(n)) == n
    decreases n
  {
    if n >= 10 {
      NatToStringValue(n / 10);
      var r := NatToString(n);
      assert r[..|r| - 1] == NatToString(n / 10);
    }
  }
}
