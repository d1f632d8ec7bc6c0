/** The java.lang.String operations the services rely on: indexOf, lastIndexOf,
    contains and trim. A Java string is modelled as a sequence of characters. */
module JavaStrings {

  /** `sub` occurs in `s` starting at position `i`. */
  predicate OccursAt(s: string, sub: string, i: int) {
    0 <= i && i + |sub| <= |s| && s[i..i + |sub|] == sub
  }

  /** An occurrence stays where it is when text is appended. */
  lemma OccursAtExtend(s: string, r: string, sub: string, i: int)
    requires OccursAt(s, sub, i)
    ensures OccursAt(s + r, sub, i)
  {
    assert (s + r)[i..i + |sub|] == s[i..i + |sub|];
  }

  /** An occurrence moves right by the length of text put in front. */
  lemma OccursAtShift(a: string, s: string, sub: string, i: int)
    requires OccursAt(s, sub, i)
    ensures OccursAt(a + s, sub, |a| + i)
  {
    assert (a + s)[|a| + i..|a| + i + |sub|] == s[i..i + |sub|];
  }

  /** `r` is a contiguous piece of `s` (a result of `s.substring(i, j)`). */
  ghost predicate IsSlice(r: string, s: string) {
    exists i, j :: 0 <= i <= j <= |s| && r == s[i..j]
  }

  /** A slice of a slice is the slice at the combined offsets. */
  lemma SliceOfSliceIndex<T>(c: seq<T>, i': nat, j': nat, i: nat, j: nat)
    requires i' <= j' <= |c| && i <= j <= j' - i'
    ensures c[i'..j'][i..j] == c[i' + i..i' + j]
  {
    forall k | 0 <= k < j - i ensures c[i'..j'][i..j][k] == c[i' + i..i' + j][k] {
      assert c[i'..j'][i..j][k] == c[i'..j'][i + k] == c[i' + i + k];
    }
  }

  lemma {:induction false} SliceOfSlice(a: string, b: string, c: string)
    requires IsSlice(a, b) && IsSlice(b, c)
    ensures IsSlice(a, c)
  {
    var i, j :| 0 <= i <= j <= |b| && a == b[i..j];
    var i', j' :| 0 <= i' <= j' <= |c| && b == c[i'..j'];
    SliceOfSliceIndex(c, i', j', i, j);
  }

  /** Search forwards from position `from` for the first occurrence of `sub`. */
  function IndexFrom(s: string, sub: string, from: nat): (r: int)
    ensures r == -1 || (from <= r && OccursAt(s, sub, r))
    ensures forall k :: from <= k && (r == -1 || k < r) ==> !OccursAt(s, sub, k)
    decreases |s| - from
  {
    if from + |sub| > |s| then -1
    else if s[from..from + |sub|] == sub then from
    else IndexFrom(s, sub, from + 1)
  }

  /** String.indexOf: the first position of `sub` in `s`, or -1 when there is none. */
  function IndexOf(s: string, sub: string): (r: int)
    ensures r == -1 || OccursAt(s, sub, r)
    ensures forall k :: 0 <= k && (r == -1 || k < r) ==> !OccursAt(s, sub, k)
  {
    IndexFrom(s, sub, 0)
  }

  /** Search backwards from position `from` for the last occurrence of `sub`. */
  function LastIndexFrom(s: string, sub: string, from: int): (r: int)
    ensures r == -1 || (r <= from && OccursAt(s, sub, r))
    ensures forall k :: k <= from && r < k ==> !OccursAt(s, sub, k)
    decreases from + 1
  {
    if from < 0 then -1
    else if OccursAt(s, sub, from) then from
    else LastIndexFrom(s, sub, from - 1)
  }

  /** String.lastIndexOf: the last position of `sub` in `s`, or -1 when there is none. */
  function LastIndexOf(s: string, sub: string): (r: int)
    ensures r == -1 || OccursAt(s, sub, r)
    ensures forall k :: r < k ==> !OccursAt(s, sub, k)
  {
    LastIndexFrom(s, sub, |s| - |sub|)
  }

  /** String.contains. */
  function Contains(s: string, sub: string): (b: bool)
    ensures b <==> exists k :: OccursAt(s, sub, k)
  {
    IndexOf(s, sub) >= 0
  }

  /** A string in which the first character of `sub` never occurs does not contain it. */
  lemma {:induction false} FirstCharAbsent(s: string, sub: string)
    requires |sub| > 0 && forall i :: 0 <= i < |s| ==> s[i] != sub[0]
    ensures !Contains(s, sub)
  {
    forall k | 0 <= k <= |s| - |sub|
      ensures !OccursAt(s, sub, k)
    {
      assert s[k..k + |sub|][0] == s[k];
    }
  }

  lemma {:induction false} IndexOfWithin(s: string, sub: string)
    ensures IndexOf(s, sub) >= 0 ==> IndexOf(s, sub) + |sub| <= |s|
    ensures IndexOf(s, sub) <= LastIndexOf(s, sub)
  {
    var i := IndexOf(s, sub);
    if i >= 0 {
      assert OccursAt(s, sub, i);
      assert !(LastIndexOf(s, sub) < i);
    }
  }

  /** The characters String.trim removes: every code unit up to and including U+0020. */
  predicate IsTrimmable(c: char) {
    c <= ' '
  }

  /** Index of the first character trim keeps (|s| when it keeps none). */
  function TrimStart(s: string): (i: nat)
    ensures i <= |s|
    ensures forall k :: 0 <= k < i ==> IsTrimmable(s[k])
    ensures i < |s| ==> !IsTrimmable(s[i])
  {
    if |s| == 0 || !IsTrimmable(s[0]) then 0 else 1 + TrimStart(s[1..])
  }

  /** One past the last character trim keeps, never below `lo`. */
  function TrimEnd(s: string, lo: nat): (j: nat)
    requires lo <= |s|
    ensures lo <= j <= |s|
    ensures forall k :: j <= k < |s| ==> IsTrimmable(s[k])
    ensures j > lo ==> !IsTrimmable(s[j - 1])
    decreases |s|
  {
    if |s| == lo || !IsTrimmable(s[|s| - 1]) then |s| else TrimEnd(s[..|s| - 1], lo)
  }

  /** Every character before `i` and from `j` on is one trim drops. */
  predicate TrimmableOutside(s: string, i: nat, j: nat)
    requires i <= j <= |s|
  {
    (forall k :: 0 <= k < i ==> IsTrimmable(s[k])) && (forall k :: j <= k < |s| ==> IsTrimmable(s[k]))
  }

  /** String.trim: drops leading and trailing characters up to U+0020. */
  function Trim(s: string): (r: string)
    ensures IsSlice(r, s)
    ensures exists i, j :: 0 <= i <= j <= |s| && r == s[i..j] && TrimmableOutside(s, i, j)
    ensures r == [] || (!IsTrimmable(r[0]) && !IsTrimmable(r[|r| - 1]))
    ensures (|s| == 0 || (!IsTrimmable(s[0]) && !IsTrimmable(s[|s| - 1]))) ==> r == s
  {
    var i := TrimStart(s);
    var j := TrimEnd(s, i);
    assert TrimmableOutside(s, i, j);
    s[i..j]
  }

  /** Trim cuts a text down to its core when the padding around the core is trimmable and
      the core neither starts nor ends with a trimmable character. */
  lemma TrimOfPadded(pre: string, core: string, post: string)
    requires forall k :: 0 <= k < |pre| ==> IsTrimmable(pre[k])
    requires forall k :: 0 <= k < |post| ==> IsTrimmable(post[k])
    requires core == [] || (!IsTrimmable(core[0]) && !IsTrimmable(core[|core| - 1]))
    ensures Trim(pre + core + post) == core
  {
    var s := pre + core + post;
    var i := TrimStart(s);
    var j := TrimEnd(s, i);
    if core == [] {
      assert s == pre + post;
      assert forall k :: 0 <= k < |s| ==> IsTrimmable(s[k]) by {
        forall k | 0 <= k < |s| ensures IsTrimmable(s[k]) {
          if k < |pre| { assert s[k] == pre[k]; } else { assert s[k] == post[k - |pre|]; }
        }
      }
      BlankMeansAllTrimmable(s);
    } else {
      assert s[|pre|] == core[0];
      assert s[|pre| + |core| - 1] == core[|core| - 1];
      assert forall k :: 0 <= k < |pre| ==> s[k] == pre[k];
      assert forall k :: |pre| + |core| <= k < |s| ==> s[k] == post[k - |pre| - |core|];
      assert s[i..j] == core;
    }
  }

  /** `s.trim().isEmpty()`: the string consists of trimmable characters only. */
  predicate IsBlank(s: string) {
    Trim(s) == []
  }

  lemma BlankMeansAllTrimmable(s: string)
    ensures IsBlank(s) <==> forall k :: 0 <= k < |s| ==> IsTrimmable(s[k])
  {
    var i := TrimStart(s);
    if i < |s| {
      assert TrimEnd(s, i) > i;
    }
  }

  /** `s.replaceAll("[...]", "")` for a character class: drops every character of `cs`. */
  function RemoveChars(s: string, cs: set<char>): (r: string)
    ensures forall k :: 0 <= k < |r| ==> r[k] !in cs
    ensures forall c :: multiset(r)[c] == if c in cs then 0 else multiset(s)[c]
    ensures (forall k :: 0 <= k < |s| ==> s[k] !in cs) ==> r == s
  {
    if |s| == 0 then []
    else
      assert s == [s[0]] + s[1..];
      if s[0] in cs then RemoveChars(s[1..], cs) else [s[0]] + RemoveChars(s[1..], cs)
  }

  /** Removal keeps the order of what it keeps: removing from two texts is removing from
      each in turn. */
  lemma {:induction false} RemoveCharsAppend(a: string, b: string, cs: set<char>)
    ensures RemoveChars(a + b, cs) == RemoveChars(a, cs) + RemoveChars(b, cs)
  {
    if |a| == 0 {
      assert a + b == b;
    } else {
      var ab := a + b;
      assert ab[0] == a[0] && ab[1..] == a[1..] + b;
      RemoveCharsAppend(a[1..], b, cs);
    }
  }

  /** A single character stays exactly when it is outside the class. */
  lemma RemoveCharsSingle(c: char, cs: set<char>)
    ensures RemoveChars([c], cs) == if c in cs then [] else [c]
  {
    assert [c][1..] == [];
  }

  /** Removing a class from a text wrapped in one of its characters leaves the text, when the
      text itself holds none of them. */
  lemma RemoveCharsWrapped(q: char, name: string, cs: set<char>)
    requires q in cs
    requires forall k :: 0 <= k < |name| ==> name[k] !in cs
    ensures RemoveChars([q] + name + [q], cs) == name
  {
    RemoveCharsAppend([q] + name, [q], cs);
    RemoveCharsAppend([q], name, cs);
    RemoveCharsSingle(q, cs);
  }
}
