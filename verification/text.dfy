/**
 * Sequence and string helpers that stand for the parts of Go's `strings`
 * package the core relies on: `Index`, `Fields`, `Split`, `HasSuffix`,
 * `TrimSuffix`, `TrimSpace`, and `filepath.Join`.
 */
module Text {

  /** `pat` occurs in `data` starting at position `i`. */
  predicate OccursAt<T(==)>(data: seq<T>, pat: seq<T>, i: int)
  {
    0 <= i && i + |pat| <= |data| && data[i..i + |pat|] == pat
  }

  /**
   * The least position at or after `from` at which `pat` occurs in `data`,
   * or -1 when there is none.
   */
  function IndexFrom<T(==)>(data: seq<T>, pat: seq<T>, from: nat): (r: int)
    ensures r == -1 || from <= r <= |data|
    ensures r >= 0 ==> OccursAt(data, pat, r)
    ensures r >= 0 ==> forall j :: from <= j < r ==> !OccursAt(data, pat, j)
    ensures r == -1 ==> forall j :: from <= j ==> !OccursAt(data, pat, j)
    decreases |data| - from
  {
    if from + |pat| > |data| then -1
    else if data[from..from + |pat|] == pat then from
    else IndexFrom(data, pat, from + 1)
  }

  /**
   * The least position at which `pat` occurs in `data`, or -1 when it does
   * not occur (Go's `strings.Index`; the empty pattern occurs at 0).
   */
  function IndexOf<T(==)>(data: seq<T>, pat: seq<T>): (r: int)
    ensures -1 <= r <= |data|
    ensures r >= 0 ==> OccursAt(data, pat, r)
    ensures r >= 0 ==> forall j :: 0 <= j < r ==> !OccursAt(data, pat, j)
    ensures r == -1 ==> forall j :: 0 <= j ==> !OccursAt(data, pat, j)
  {
    IndexFrom(data, pat, 0)
  }

  /** `strings.HasSuffix`. */
  predicate HasSuffix<T(==)>(s: seq<T>, suffix: seq<T>)
  {
    |suffix| <= |s| && s[|s| - |suffix|..] == suffix
  }

  /** `strings.TrimSuffix`: drops `suffix` once when present. */
  function TrimSuffix<T(==)>(s: seq<T>, suffix: seq<T>): (r: seq<T>)
    ensures HasSuffix(s, suffix) ==> r + suffix == s
    ensures !HasSuffix(s, suffix) ==> r == s
  {
    if HasSuffix(s, suffix) then s[..|s| - |suffix|] else s
  }

  /** `strings.Split` with a one-character separator. */
  function Split(s: string, sep: char): (parts: seq<string>)
    ensures |parts| >= 1 && SeparatorFreeParts(parts, sep)
    decreases |s|
  {
    var k := FirstSeparator(s, sep);
    if k == -1 then [s]
    else
      var rest := Split(s[k + 1..], sep);
      ConsSeparatorFree(s[..k], rest, sep);
      [s[..k]] + rest
  }

  /** No part contains the separator. */
  predicate SeparatorFreeParts(parts: seq<string>, sep: char)
  {
    forall i :: 0 <= i < |parts| ==> sep !in parts[i]
  }

  /** Where `Split` cuts: the first separator, or -1 when there is none. */
  function FirstSeparator(s: string, sep: char): (k: int)
    ensures k == -1 ==> sep !in s
    ensures k != -1 ==> 0 <= k < |s| && s[k] == sep && sep !in s[..k]
  {
    var k := IndexOf(s, [sep]);
    SeparatorFree(s, sep, k);
    k
  }

  /** Putting a separator-free part in front of separator-free parts keeps them separator-free. */
  lemma ConsSeparatorFree(head: string, rest: seq<string>, sep: char)
    requires sep !in head && SeparatorFreeParts(rest, sep)
    ensures SeparatorFreeParts([head] + rest, sep)
  {
    var parts := [head] + rest;
    forall i | 0 <= i < |parts|
      ensures sep !in parts[i]
    {
      if i > 0 {
        assert parts[i] == rest[i - 1];
      }
    }
  }

  /** Before the first separator, and everywhere when there is none, the separator is absent. */
  lemma SeparatorFree(s: string, sep: char, k: int)
    requires k == IndexOf(s, [sep])
    ensures k == -1 ==> sep !in s
    ensures k != -1 ==> 0 <= k < |s| && s[k] == sep && sep !in s[..k]
  {
    var end := if k == -1 then |s| else k;
    forall j | 0 <= j < end
      ensures s[j] != sep
    {
      assert !OccursAt(s, [sep], j);
      assert s[j..j + 1] == [s[j]];
    }
    if k != -1 {
      assert s[k..k + 1] == [sep];
    }
  }

  /** Joins parts with a one-character separator (the inverse of `Split`). */
  function Join(parts: seq<string>, sep: char): string
    decreases |parts|
  {
    if |parts| == 0 then ""
    else if |parts| == 1 then parts[0]
    else parts[0] + [sep] + Join(parts[1..], sep)
  }

  lemma {:induction false} JoinSplit(s: string, sep: char)
    ensures Join(Split(s, sep), sep) == s
    decreases |s|
  {
    var k := IndexOf(s, [sep]);
    if k != -1 {
      SplitAt(s, sep, k);
      JoinSplit(s[k + 1..], sep);
      JoinCons(s[..k], Split(s[k + 1..], sep), sep);
      assert s == s[..k] + [sep] + s[k + 1..];
    }
  }

  /** Where the separator first occurs, `Split` cuts off the first part. */
  lemma SplitAt(s: string, sep: char, k: int)
    requires k == IndexOf(s, [sep]) && k != -1
    ensures 0 <= k < |s| && s[k] == sep
    ensures Split(s, sep) == [s[..k]] + Split(s[k + 1..], sep)
  {
    assert s[k..k + 1] == [sep];
  }

  /** `Join` puts the separator between the first part and the join of the rest. */
  lemma JoinCons(head: string, rest: seq<string>, sep: char)
    requires |rest| >= 1
    ensures Join([head] + rest, sep) == head + [sep] + Join(rest, sep)
  {
    assert ([head] + rest)[1..] == rest;
  }

  /** A string without the separator splits into itself alone. */
  lemma SplitWithout(s: string, sep: char)
    requires sep !in s
    ensures Split(s, sep) == [s]
  {
    var k := IndexOf(s, [sep]);
    if k != -1 {
      OccursOne(s, sep, k);
      assert false;
    }
  }

  /** A one-character pattern occurs where that character is. */
  lemma OccursOne(s: string, c: char, k: int)
    requires OccursAt(s, [c], k)
    ensures 0 <= k < |s| && s[k] == c
  {
    assert s[k..k + 1] == [s[k]];
  }

  /** The first separator of `head + [sep] + rest`, when `head` has none, ends the first part. */
  lemma SplitFirst(head: string, sep: char, rest: string)
    requires sep !in head
    ensures Split(head + [sep] + rest, sep) == [head] + Split(rest, sep)
  {
    var s := head + [sep] + rest;
    var k := IndexOf(s, [sep]);
    assert s[|head|..|head| + 1] == [sep];
    assert OccursAt(s, [sep], |head|);
    if k < |head| {
      OccursOne(s, sep, k);
      assert false;
    }
    assert k == |head|;
    SplitAt(s, sep, k);
    assert s[..k] == head && s[k + 1..] == rest;
  }

  /** Go's `unicode.IsSpace`. */
  predicate IsSpace(c: char)
  {
    c == ' ' || c == '\t' || c == '\n' || c == '\U{000B}' || c == '\U{000C}' || c == '\r'
    || c == '\U{0085}' || c == '\U{00A0}' || c == '\U{1680}' || ('\U{2000}' <= c <= '\U{200A}')
    || c == '\U{2028}' || c == '\U{2029}' || c == '\U{202F}' || c == '\U{205F}' || c == '\U{3000}'
  }

  /** The number of leading white-space characters of `s`. */
  function LeadingSpace(s: string): (n: nat)
    ensures n <= |s|
    ensures forall i :: 0 <= i < n ==> IsSpace(s[i])
    ensures n < |s| ==> !IsSpace(s[n])
    decreases |s|
  {
    if |s| > 0 && IsSpace(s[0]) then 1 + LeadingSpace(s[1..]) else 0
  }

  /** The length of the leading run of non-space characters of `s`. */
  function LeadingWord(s: string): (n: nat)
    ensures n <= |s|
    ensures forall i :: 0 <= i < n ==> !IsSpace(s[i])
    ensures n < |s| ==> IsSpace(s[n])
    decreases |s|
  {
    if |s| > 0 && !IsSpace(s[0]) then 1 + LeadingWord(s[1..]) else 0
  }

  /** `strings.Fields`: the maximal runs of non-space characters, in order. */
  function Fields(s: string): (fs: seq<string>)
    ensures forall i :: 0 <= i < |fs| ==> IsWord(fs[i])
    decreases |s|, 1
  {
    Words(s[LeadingSpace(s)..])
  }

  /** The fields of a string that does not start with white space. */
  function Words(s: string): (fs: seq<string>)
    requires s == [] || !IsSpace(s[0])
    ensures forall i :: 0 <= i < |fs| ==> IsWord(fs[i])
    decreases |s|, 0
  {
    if s == [] then []
    else
      var w := LeadingWord(s);
      [s[..w]] + Fields(s[w..])
  }

  /** A non-empty run of non-space characters. */
  predicate IsWord(w: string)
  {
    |w| > 0 && forall i :: 0 <= i < |w| ==> !IsSpace(w[i])
  }

  /** A word followed by white space or nothing is the first field. */
  lemma FieldsWord(w: string, rest: string)
    requires IsWord(w)
    requires rest == [] || IsSpace(rest[0])
    ensures Fields(w + rest) == [w] + Fields(rest)
  {
    var s := w + rest;
    assert s[0] == w[0];
    assert LeadingSpace(s) == 0;
    assert s[0..] == s;
    assert s[..|w|] == w && s[|w|..] == rest;
    assert LeadingWord(s) == |w| by {
      assert forall i :: 0 <= i < |w| ==> s[i] == w[i];
      assert rest != [] ==> s[|w|] == rest[0];
    }
    assert Words(s) == [w] + Fields(rest);
  }

  /** Leading white space does not change the fields. */
  lemma {:induction false} FieldsSpaces(sp: string, s: string)
    requires forall i :: 0 <= i < |sp| ==> IsSpace(sp[i])
    ensures Fields(sp + s) == Fields(s)
    decreases |sp|
  {
    LeadingSpaceSkip(sp, s);
    var t := sp + s;
    assert t[LeadingSpace(t)..] == s[LeadingSpace(s)..];
  }

  lemma {:induction false} LeadingSpaceSkip(sp: string, s: string)
    requires forall i :: 0 <= i < |sp| ==> IsSpace(sp[i])
    ensures LeadingSpace(sp + s) == |sp| + LeadingSpace(s)
    decreases |sp|
  {
    if sp == [] {
      assert sp + s == s;
    } else {
      assert IsSpace(sp[0]) && (sp + s)[0] == sp[0];
      assert (sp + s)[1..] == sp[1..] + s;
      LeadingSpaceSkip(sp[1..], s);
    }
  }

  /** Words joined by single spaces split back into the same words. */
  lemma {:induction false} FieldsJoin(ws: seq<string>)
    requires forall k :: 0 <= k < |ws| ==> IsWord(ws[k])
    ensures Fields(Join(ws, ' ')) == ws
    decreases |ws|
  {
    if |ws| == 1 {
      assert Join(ws, ' ') == ws[0] + "";
      FieldsWord(ws[0], "");
      assert Fields("") == [];
    } else if |ws| > 1 {
      var rest := Join(ws[1..], ' ');
      assert Join(ws, ' ') == ws[0] + ([' '] + rest);
      FieldsJoin(ws[1..]);
      FieldsSpaced(ws[0], rest);
      assert [ws[0]] + ws[1..] == ws;
    }
  }

  /** A word, a space and more text split into the word and the fields of the rest. */
  lemma FieldsSpaced(w: string, rest: string)
    requires IsWord(w)
    ensures Fields(w + ([' '] + rest)) == [w] + Fields(rest)
  {
    FieldsSpaces([' '], rest);
    FieldsWord(w, [' '] + rest);
  }

  /** A character that is neither the separator nor in any part is not in their join. */
  lemma {:induction false} JoinWithout(ws: seq<string>, sep: char, c: char)
    requires c != sep
    requires forall k :: 0 <= k < |ws| ==> c !in ws[k]
    ensures c !in Join(ws, sep)
    decreases |ws|
  {
    if |ws| > 1 {
      JoinWithout(ws[1..], sep, c);
    }
  }

  /** Every character of `u` is white space. */
  predicate AllSpace(u: string)
  {
    forall k :: 0 <= k < |u| ==> IsSpace(u[k])
  }

  /** How many white-space characters `s` starts with. */
  function SpacePrefix(s: string): (n: nat)
    ensures n <= |s| && AllSpace(s[..n])
    ensures n < |s| ==> !IsSpace(s[n])
  {
    if |s| > 0 && IsSpace(s[0]) then
      var m := SpacePrefix(s[1..]);
      assert s[..m + 1] == [s[0]] + s[1..][..m];
      1 + m
    else 0
  }

  /** `strings.TrimSpace`: no leading or trailing white space remains. */
  function TrimSpace(s: string): (r: string)
    ensures |r| <= |s|
    ensures |r| > 0 ==> !IsSpace(r[0]) && !IsSpace(r[|r| - 1])
    decreases |s|
  {
    if |s| > 0 && IsSpace(s[0]) then TrimSpace(s[1..])
    else if |s| > 0 && IsSpace(s[|s| - 1]) then TrimSpace(s[..|s| - 1])
    else s
  }

  /**
   * What `TrimSpace` keeps is the stretch of `s` that starts after its
   * leading white space and is followed only by white space: the edges
   * are cut and nothing else.
   */
  lemma {:induction false} TrimSpaceCuts(s: string)
    ensures var r, i := TrimSpace(s), SpacePrefix(s);
      i + |r| <= |s| && r == s[i..i + |r|] && AllSpace(s[i + |r|..])
    decreases |s|
  {
    if |s| > 0 && IsSpace(s[0]) {
      TrimSpaceCuts(s[1..]);
      TrimLeading(s);
      CutShift(s, TrimSpace(s[1..]), SpacePrefix(s[1..]));
    } else if |s| > 0 && IsSpace(s[|s| - 1]) {
      TrimSpaceCuts(s[..|s| - 1]);
      TrimTrailing(s);
    }
  }

  /** A leading space adds one to the leading white space and is trimmed away. */
  lemma TrimLeading(s: string)
    requires |s| > 0 && IsSpace(s[0])
    ensures SpacePrefix(s) == SpacePrefix(s[1..]) + 1
    ensures TrimSpace(s) == TrimSpace(s[1..])
  {
  }

  /** A stretch of `s[1..]` followed by white space is the same stretch of `s`, one further on. */
  lemma CutShift(s: string, r: string, i: nat)
    requires |s| > 0 && i + |r| <= |s| - 1
    requires r == s[1..][i..i + |r|] && AllSpace(s[1..][i + |r|..])
    ensures r == s[i + 1..i + 1 + |r|] && AllSpace(s[i + 1 + |r|..])
  {
    assert s[i + 1 + |r|..] == s[1..][i + |r|..];
  }

  /** The step of `TrimSpaceCuts` that drops a trailing space. */
  lemma TrimTrailing(s: string)
    requires |s| > 0 && !IsSpace(s[0]) && IsSpace(s[|s| - 1])
    requires var t := s[..|s| - 1]; var r, i := TrimSpace(t), SpacePrefix(t);
      i + |r| <= |t| && r == t[i..i + |r|] && AllSpace(t[i + |r|..])
    ensures var r, i := TrimSpace(s), SpacePrefix(s);
      i + |r| <= |s| && r == s[i..i + |r|] && AllSpace(s[i + |r|..])
  {
    var t := s[..|s| - 1];
    var r := TrimSpace(t);
    assert TrimSpace(s) == r;
    assert SpacePrefix(t) == 0 by {
      if |t| > 0 {
        assert t[0] == s[0];
      }
    }
    assert t[0..|r|] == s[0..|r|];
    assert s[|r|..] == t[|r|..] + [s[|s| - 1]];
  }

  /**
   * `filepath.Join` of two elements: an empty element is skipped and the
   * others are separated by one '/' (the `Clean` step is not modelled).
   */
  function PathJoin(dir: string, name: string): (p: string)
    ensures dir != "" && name != "" ==> p == dir + "/" + name
  {
    if dir == "" then name else if name == "" then dir else dir + "/" + name
  }

  /** ASCII lower-casing, standing for `strings.ToLower`. */
  function ToLower(s: string): (r: string)
    ensures |r| == |s|
    ensures forall i :: 0 <= i < |s| ==> r[i] == if 'A' <= s[i] <= 'Z' then (s[i] as int + 32) as char else s[i]
  {
    seq(|s|, i requires 0 <= i < |s| => if 'A' <= s[i] <= 'Z' then (s[i] as int + 32) as char else s[i])
  }

  /** `strings.Contains`. */
  predicate Contains<T(==)>(s: seq<T>, pat: seq<T>)
  {
    IndexOf(s, pat) >= 0
  }
}
