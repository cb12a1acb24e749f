/**
 * `batch`: the next window of a recipient list, and the arithmetic of the
 * cursor that the caller keeps advancing in lockstep.
 */
module Batching {
  import opened Bars

  function Min(a: int, b: int): int { if a <= b then a else b }

  /**
   * The batch string for the window of `size` entries starting at `index`:
   * those entries, each followed by '|', or "" once `index` has reached the end.
   */
  function Window(src: seq<string>, index: nat, size: nat): string
  {
    if index >= |src| then "" else Suffixed(src[index..Min(index + size, |src|)])
  }

  /** Up to the end of the list, a window is the next `size` entries (fewer at the tail), each suffixed. */
  lemma WindowSlice(src: seq<string>, index: nat, size: nat)
    requires index <= |src|
    ensures Window(src, index, size) == Suffixed(src[index..Min(index + size, |src|)])
  {
    if index == |src| {
      assert src[index..Min(index + size, |src|)] == [];
    }
  }

  /**
   * `batch(src, &index, size)`: takes the next window and advances the
   * cursor, handed back as `next`, by `size`; past the end it returns "" and
   * leaves the cursor where it is.
   */
  method Batch(src: seq<string>, index: nat, size: nat) returns (to: string, next: nat)
    ensures index > |src| ==> to == "" && next == index
    ensures index <= |src| ==> next == index + size
    ensures to == Window(src, index, size)
  {
    if index > |src| {
      return "", index;
    }
    var sub: seq<string>;
    if index + size > |src| {
      sub := src[index..];
    } else {
      sub := src[index..index + size];
    }
    next := index + size;
    to := "";
    var k := 0;
    while k < |sub|
      invariant 0 <= k <= |sub|
      invariant to == Suffixed(sub[..k])
    {
      assert sub[..k + 1][..k] == sub[..k];
      to := to + sub[k] + "|";
      k := k + 1;
    }
    assert sub[..k] == sub;
    assert sub == src[index..Min(index + size, |src|)];
  }

  /** `ceil(len / size)`: the rounds a list of `len` entries needs. */
  function Ceil(len: nat, size: nat): nat
    requires size > 0
  {
    (len + size - 1) / size
  }

  lemma MulMono(a: nat, b: nat, size: nat)
    requires a <= b
    ensures a * size <= b * size
  {
  }

  /** Enough rounds have passed exactly when `j * size` covers the list. */
  lemma CeilSpec(len: nat, size: nat, j: nat)
    requires size > 0
    ensures j * size >= len <==> j >= Ceil(len, size)
  {
    var c := Ceil(len, size);
    var r := (len + size - 1) % size;
    assert c * size + r == len + size - 1;
    if j >= c {
      MulMono(c, j, size);
    } else {
      MulMono(j, c - 1, size);
      assert (c - 1) * size == c * size - size;
    }
  }

  /**
   * Where the cursor `c` of a list of `len` entries may stand after `j`
   * calls of `batch` from 0: at `j * size` while it has not passed the end,
   * and, once past it, at a point `j * size` has also passed.
   */
  predicate CursorAt(len: nat, size: nat, j: nat, c: nat)
  {
    (c <= len ==> c == j * size) && (c > len ==> j * size >= c)
  }

  /** One more call of `batch` yields round `j`'s window and moves the cursor to round `j + 1`. */
  lemma BatchAdvance(src: seq<string>, size: nat, j: nat, c: nat, to: string, next: nat)
    requires CursorAt(|src|, size, j, c)
    requires c > |src| ==> next == c
    requires c <= |src| ==> next == c + size
    requires to == Window(src, c, size)
    ensures to == Window(src, j * size, size) && CursorAt(|src|, size, j + 1, next)
  {
    assert (j + 1) * size == j * size + size;
  }

  /** A cursor is at or past the end exactly when the rounds its list needs are done. */
  lemma CursorDone(len: nat, size: nat, j: nat, c: nat)
    requires size > 0 && CursorAt(len, size, j, c)
    ensures c >= len <==> j >= Ceil(len, size)
  {
    CeilSpec(len, size, j);
  }

  /** Where round `r`'s window starts: `size` entries after round `r - 1`'s. */
  function Start(r: nat, size: nat): nat
  {
    if r == 0 then 0 else Start(r - 1, size) + size
  }

  /** The start of round `n - 1` is `size` before the start of round `n`. */
  lemma PrevStart(n: nat, size: nat) returns (a: nat)
    requires n > 0
    ensures a == (n - 1) * size && n * size == a + size
  {
    a := (n - 1) * size;
  }

  /** Round `r` starts at entry `r * size`. */
  lemma {:induction false} StartIsProduct(r: nat, size: nat)
    ensures Start(r, size) == r * size
  {
    if r > 0 {
      StartIsProduct(r - 1, size);
      var a := PrevStart(r, size);
    }
  }

  lemma MulNonneg(a: nat, b: nat)
    ensures a * b >= 0
  {
  }

  /** The batch strings of the first `n` rounds, in round order. */
  function Windows(src: seq<string>, size: nat, n: nat): (ws: seq<string>)
    ensures |ws| == n
  {
    if n == 0 then [] else Windows(src, size, n - 1) + [Window(src, Start(n - 1, size), size)]
  }

  /** Concatenation of strings in order. */
  function Concat(ss: seq<string>): string
  {
    if |ss| == 0 then "" else Concat(ss[..|ss| - 1]) + ss[|ss| - 1]
  }

  lemma {:induction false} WindowsAtStart(src: seq<string>, size: nat, n: nat, r: nat)
    requires r < n
    ensures Windows(src, size, n)[r] == Window(src, Start(r, size), size)
  {
    if r < n - 1 {
      WindowsAtStart(src, size, n - 1, r);
    }
  }

  /** Round `r`'s batch string is the window at `r * size`. */
  lemma WindowsAt(src: seq<string>, size: nat, n: nat, r: nat)
    requires r < n
    ensures Windows(src, size, n)[r] == Window(src, r * size, size)
  {
    WindowsAtStart(src, size, n, r);
    StartIsProduct(r, size);
  }

  /** Appending the window at `a` to the suffixed entries before `a` extends them by `size` entries. */
  lemma WindowExtends(src: seq<string>, a: nat, size: nat)
    ensures Suffixed(src[..Min(a, |src|)]) + Window(src, a, size) == Suffixed(src[..Min(a + size, |src|)])
  {
    if a < |src| {
      var lo, hi := a, Min(a + size, |src|);
      assert src[..hi] == src[..lo] + src[lo..hi];
      SuffixedConcat(src[..lo], src[lo..hi]);
    }
  }

  /** The first `n` windows together are the entries before round `n`'s start, suffixed. */
  lemma {:induction false} WindowsPrefix(src: seq<string>, size: nat, n: nat)
    ensures Concat(Windows(src, size, n)) == Suffixed(src[..Min(Start(n, size), |src|)])
  {
    if n == 0 {
      assert src[..0] == [];
    } else {
      var ws := Windows(src, size, n);
      assert ws[..n - 1] == Windows(src, size, n - 1);
      WindowsPrefix(src, size, n - 1);
      WindowExtends(src, Start(n - 1, size), size);
    }
  }

  /**
   * Coverage: once every round the list needs has run, the windows in order
   * hold every entry exactly once, in order.
   */
  lemma WindowsCover(src: seq<string>, size: nat, n: nat)
    requires size > 0
    requires n >= Ceil(|src|, size)
    ensures Concat(Windows(src, size, n)) == Suffixed(src)
  {
    CeilSpec(|src|, size, n);
    StartIsProduct(n, size);
    WindowsPrefix(src, size, n);
    assert src[..|src|] == src;
  }

  /** Bound: a window of separator-free entries holds at most `size` of them. */
  lemma WindowBound(src: seq<string>, index: nat, size: nat)
    requires forall i :: 0 <= i < |src| ==> '|' !in src[i]
    ensures Entries(Window(src, index, size)) <= size
  {
    if index < |src| {
      var sub := src[index..Min(index + size, |src|)];
      assert forall i :: 0 <= i < |sub| ==> sub[i] == src[index + i];
      EntriesOfSuffixed(sub);
    }
  }

  /** A window is empty exactly when it starts at or past the end of the list. */
  lemma WindowEmpty(src: seq<string>, index: nat, size: nat)
    requires size > 0
    ensures Window(src, index, size) == "" <==> index >= |src|
  {
    if index < |src| {
      var sub := src[index..Min(index + size, |src|)];
      assert |sub| > 0;
      assert |Suffixed(sub)| > 0;
    }
  }
}
