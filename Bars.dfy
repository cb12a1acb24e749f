/**
 * Destination lists in the WeChat notifier are strings whose entries are
 * separated by '|'. This module models Go's `strings.Split(s, "|")`, the
 * matching join, the "each entry followed by '|'" form that `batch` builds,
 * and `strings.TrimPrefix(s, "|")`.
 */
module Bars {

  /** `strings.Split(s, "|")`: never empty, and no part contains the separator. */
  function Split(s: string): (parts: seq<string>)
    ensures |parts| >= 1
    ensures forall i :: 0 <= i < |parts| ==> '|' !in parts[i]
  {
    if |s| == 0 then [""]
    else
      var init := Split(s[..|s| - 1]);
      var c := s[|s| - 1];
      if c == '|' then init + [""]
      else init[..|init| - 1] + [init[|init| - 1] + [c]]
  }

  /** `strings.Join(parts, "|")`. */
  function Join(parts: seq<string>): string
  {
    if |parts| == 0 then ""
    else if |parts| == 1 then parts[0]
    else Join(parts[..|parts| - 1]) + "|" + parts[|parts| - 1]
  }

  /** The string `batch` accumulates: every entry followed by one '|'. */
  function Suffixed(parts: seq<string>): string
  {
    if |parts| == 0 then ""
    else Suffixed(parts[..|parts| - 1]) + parts[|parts| - 1] + "|"
  }

  /** `strings.TrimPrefix(s, "|")`: removes at most one leading separator. */
  function TrimBar(s: string): string
  {
    if |s| > 0 && s[0] == '|' then s[1..] else s
  }

  /** Number of entries in a batch string: each entry is closed by one '|'. */
  function Entries(s: string): nat
  {
    multiset(s)['|']
  }

  /** True of a string that does not begin with the separator. */
  predicate NoLeadingBar(s: string)
  {
    |s| == 0 || s[0] != '|'
  }

  /** Joining the parts of a split gives back the original string. */
  lemma {:induction false} JoinSplit(s: string)
    ensures Join(Split(s)) == s
  {
    if |s| > 0 {
      var s' := s[..|s| - 1];
      var c := s[|s| - 1];
      JoinSplit(s');
      assert s == s' + [c];
      if c == '|' {
        JoinSnoc(Split(s'), "");
      } else {
        JoinExtendLast(Split(s'), c);
      }
    }
  }

  /** Extending the last part by one character extends the join by that character. */
  lemma JoinExtendLast(parts: seq<string>, c: char)
    requires |parts| >= 1
    ensures Join(parts[..|parts| - 1] + [parts[|parts| - 1] + [c]]) == Join(parts) + [c]
  {
    var n := |parts|;
    var parts' := parts[..n - 1] + [parts[n - 1] + [c]];
    if n > 1 {
      assert parts'[..n - 1] == parts[..n - 1];
    }
  }

  /** Appending one part to a non-empty list extends the join by "|" and that part. */
  lemma JoinSnoc(parts: seq<string>, p: string)
    requires |parts| >= 1
    ensures Join(parts + [p]) == Join(parts) + "|" + p
  {
    assert (parts + [p])[..|parts|] == parts;
  }

  /** A non-empty list in suffixed form is its join followed by one '|'. */
  lemma {:induction false} SuffixedIsJoin(parts: seq<string>)
    requires |parts| >= 1
    ensures Suffixed(parts) == Join(parts) + "|"
  {
    if |parts| > 1 {
      SuffixedIsJoin(parts[..|parts| - 1]);
    } else {
      assert parts[..0] == [];
    }
  }

  /** Suffixing distributes over concatenation of lists. */
  lemma {:induction false} SuffixedConcat(a: seq<string>, b: seq<string>)
    ensures Suffixed(a + b) == Suffixed(a) + Suffixed(b)
  {
    if |b| == 0 {
      assert a + b == a;
    } else {
      var b' := b[..|b| - 1];
      SuffixedConcat(a, b');
      assert (a + b)[..|a + b| - 1] == a + b';
    }
  }

  /** A suffixed list of separator-free entries holds exactly that many entries. */
  lemma {:induction false} EntriesOfSuffixed(parts: seq<string>)
    requires forall i :: 0 <= i < |parts| ==> '|' !in parts[i]
    ensures Entries(Suffixed(parts)) == |parts|
  {
    if |parts| > 0 {
      var init := parts[..|parts| - 1];
      var last := parts[|parts| - 1];
      EntriesOfSuffixed(init);
      assert multiset(Suffixed(parts)) == multiset(Suffixed(init)) + multiset(last) + multiset("|");
    }
  }

  /** A join of non-empty parts that themselves do not begin with '|' does not begin with '|'. */
  lemma {:induction false} JoinNoLeadingBar(parts: seq<string>)
    requires forall i :: 0 <= i < |parts| ==> |parts[i]| > 0 && NoLeadingBar(parts[i])
    ensures NoLeadingBar(Join(parts))
    ensures |parts| > 0 ==> |Join(parts)| > 0
  {
    if |parts| > 1 {
      JoinNoLeadingBar(parts[..|parts| - 1]);
    }
  }
}
