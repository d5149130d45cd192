/** The few string operations of the Go library that decisions depend on. */
module Strings {

  /** The characters `strings.TrimSpace` removes. */
  predicate IsSpace(c: char) {
    || c in {'\t', '\n', '\U{000B}', '\U{000C}', '\r', ' ', '\U{0085}', '\U{00A0}', '\U{1680}'}
    || '\U{2000}' <= c <= '\U{200A}'
    || c in {'\U{2028}', '\U{2029}', '\U{202F}', '\U{205F}', '\U{3000}'}
  }

  predicate Blank(s: string) { forall i :: 0 <= i < |s| ==> IsSpace(s[i]) }

  function TrimSpace(s: string): (t: string)
    ensures t == "" <==> Blank(s)
    ensures t != "" ==> !IsSpace(t[0]) && !IsSpace(t[|t| - 1])
    decreases |s|
  {
    if s == "" then ""
    else if IsSpace(s[0]) then TrimSpace(s[1..])
    else if IsSpace(s[|s| - 1]) then TrimSpace(s[..|s| - 1])
    else s
  }

  /** Nothing but spaces at either end is taken away. */
  lemma {:induction false} TrimmedAround(s: string) returns (left: string, right: string)
    ensures s == left + TrimSpace(s) + right && Blank(left) && Blank(right)
    decreases |s|
  {
    hide IsSpace;
    if s == "" {
      left, right := "", "";
    } else if IsSpace(s[0]) {
      var l, r := TrimmedAround(s[1..]);
      left, right := [s[0]] + l, r;
      assert [s[0]] + (l + TrimSpace(s[1..]) + r) == left + TrimSpace(s) + right;
    } else if IsSpace(s[|s| - 1]) {
      var l, r := TrimmedAround(s[..|s| - 1]);
      left, right := l, r + [s[|s| - 1]];
      assert (l + TrimSpace(s[..|s| - 1]) + r) + [s[|s| - 1]] == left + TrimSpace(s) + right;
    } else {
      left, right := "", "";
    }
  }

  /** And all spaces at either end are. */
  lemma {:induction false} TrimsBlanks(left: string, s: string, right: string)
    requires Blank(left) && Blank(right) && s != "" && !IsSpace(s[0]) && !IsSpace(s[|s| - 1])
    ensures TrimSpace(left + s + right) == s
    decreases |left| + |right|
  {
    var all := left + s + right;
    if left != "" {
      assert all[0] == left[0] && all[1..] == left[1..] + s + right;
      TrimsBlanks(left[1..], s, right);
    } else if right != "" {
      assert all[|all| - 1] == right[|right| - 1] && all[0] == s[0];
      assert all[..|all| - 1] == left + s + right[..|right| - 1];
      TrimsBlanks(left, s, right[..|right| - 1]);
    } else {
      assert all == s;
    }
  }

  predicate At(s: string, sub: string, i: nat) { i + |sub| <= |s| && s[i..i + |sub|] == sub }

  predicate Contains(s: string, sub: string) { exists i: nat :: i <= |s| && At(s, sub, i) }

  function Lower(c: char): char { if 'A' <= c <= 'Z' then c - 'A' + 'a' else c }

  function ToLower(s: string): (t: string)
    ensures |t| == |s|
  {
    seq(|s|, i requires 0 <= i < |s| => Lower(s[i]))
  }

  lemma ContainsMeans(s: string, sub: string)
    ensures Contains(s, sub) <==> exists left: string, right: string :: s == left + sub + right
  {
    if Contains(s, sub) {
      var i: nat :| i <= |s| && At(s, sub, i);
      assert s == s[..i] + sub + s[i + |sub|..];
    }
    if left: string, right: string :| s == left + sub + right {
      assert At(s, sub, |left|);
    }
  }

  /** Two characters that differ in case at most. */
  predicate SameLetter(c: char, d: char) {
    || c == d
    || ('A' <= c <= 'Z' && d as int == c as int + 32)
    || ('A' <= d <= 'Z' && c as int == d as int + 32)
  }

  /** Lower-casing makes strings equal exactly if they differ in case only, and leaves no capital. */
  lemma FoldsCase(s: string, t: string)
    ensures ToLower(s) == ToLower(t) <==> |s| == |t| && forall i :: 0 <= i < |s| ==> SameLetter(s[i], t[i])
    ensures forall i :: 0 <= i < |s| ==> !('A' <= ToLower(s)[i] <= 'Z')
  {
    if ToLower(s) == ToLower(t) {
      forall i | 0 <= i < |s| ensures SameLetter(s[i], t[i]) {
        assert Lower(s[i]) == ToLower(s)[i] == ToLower(t)[i] == Lower(t[i]);
      }
    }
  }

  lemma AtMeans(s: string, sub: string, i: nat, k: nat)
    requires k < |sub|
    ensures At(s, sub, i) ==> i + k < |s| && s[i + k] == sub[k]
  {
    if At(s, sub, i) { assert s[i + k] == s[i..i + |sub|][k]; }
  }

  /** Two neighbouring characters show that no occurrence of `sub` starts at `i`. */
  predicate Mismatch(prefix: string, sub: string, i: nat)
    requires i < |prefix| && |sub| > 1
  {
    prefix[i] != sub[0] || (i + 1 < |prefix| && prefix[i + 1] != sub[1])
  }

  /** A prefix in which no occurrence starts makes no difference. */
  lemma PrefixIrrelevant(prefix: string, s: string, sub: string)
    requires |sub| > 1 && forall i: nat :: i < |prefix| ==> Mismatch(prefix, sub, i)
    ensures Contains(prefix + s, sub) <==> Contains(s, sub)
  {
    forall i: nat | i < |prefix| ensures !At(prefix + s, sub, i) {
      AtMeans(prefix + s, sub, i, 0);
      AtMeans(prefix + s, sub, i, 1);
      assert Mismatch(prefix, sub, i);
    }
    var n, t := |prefix|, prefix + s;
    if Contains(s, sub) {
      var i: nat :| i <= |s| && At(s, sub, i);
      assert t[n + i..n + i + |sub|] == s[i..i + |sub|];
      assert At(t, sub, n + i);
    }
    if Contains(t, sub) {
      var i: nat :| i <= |t| && At(t, sub, i);
      assert s[i - n..i - n + |sub|] == t[i..i + |sub|];
      assert At(s, sub, i - n);
    }
  }

  lemma LowerConcat(a: string, b: string)
    ensures ToLower(a + b) == ToLower(a) + ToLower(b)
  {
  }

  /** The first argument that is not empty. */
  function FirstNonEmpty(ss: seq<string>): string {
    if ss == [] then "" else if ss[0] != "" then ss[0] else FirstNonEmpty(ss[1..])
  }

  lemma FirstOfThree(a: string, b: string, c: string)
    ensures FirstNonEmpty([a, b, c]) == if a != "" then a else if b != "" then b else c
    ensures FirstNonEmpty([a, b]) == if a != "" then a else b
  {
    assert [a, b, c][1..] == [b, c] && [b, c][1..] == [c] && [a, b][1..] == [b];
    assert [b][1..] == [] && [c][1..] == [];
    assert FirstNonEmpty([c]) == c && FirstNonEmpty([b]) == b;
    assert FirstNonEmpty([b, c]) == if b != "" then b else c;
  }
}
