/** String and sequence operations shared by the three back-ends: joining
    with a separator, slicing with negative bounds, keeping the most recent
    entries of a log, and cutting the short excerpt shown for a source. */
module Text {

  function Min(a: int, b: int): int
  {
    if a <= b then a else b
  }

  /** Python's `sep.join(parts)` and JavaScript's `parts.join(sep)`. */
  function Join(parts: seq<string>, sep: string): (r: string)
    ensures parts == [] ==> r == ""
  {
    if |parts| == 0 then ""
    else if |parts| == 1 then parts[0]
    else parts[0] + sep + Join(parts[1..], sep)
  }

  /** The joined text starts with the first part and ends with the last. */
  lemma {:induction false} JoinEnds(parts: seq<string>, sep: string)
    requires parts != []
    ensures parts[0] <= Join(parts, sep)
    ensures var last, r := parts[|parts| - 1], Join(parts, sep);
            |last| <= |r| && r[|r| - |last|..] == last
  {
    if |parts| > 1 {
      var tail := parts[1..];
      var r, rest := Join(parts, sep), Join(tail, sep);
      var last := parts[|parts| - 1];
      assert r == parts[0] + (sep + rest);
      JoinEnds(tail, sep);
      assert tail[|tail| - 1] == last;
      assert r[|r| - |last|..] == rest[|rest| - |last|..];
    }
  }

  /** Joining a list is joining its two halves around one more separator. */
  lemma {:induction false} JoinSplit(parts: seq<string>, sep: string, i: nat)
    requires 0 < i < |parts|
    ensures Join(parts, sep) == Join(parts[..i], sep) + sep + Join(parts[i..], sep)
  {
    var head, tail := parts[0], parts[1..];
    assert Join(parts, sep) == head + sep + Join(tail, sep);
    if i == 1 {
      assert parts[..1] == [head];
      assert tail == parts[i..];
    } else {
      var left := Join(parts[..i][1..], sep);
      var right := Join(parts[i..], sep);
      assert Join(tail, sep) == left + sep + right by {
        JoinSplit(tail, sep, i - 1);
        assert tail[..i - 1] == parts[..i][1..];
        assert tail[i - 1..] == parts[i..];
      }
      assert Join(parts[..i], sep) == head + sep + left by {
        assert parts[..i][0] == head;
      }
      assert head + sep + (left + sep + right) == (head + sep + left) + sep + right;
    }
  }

  /** The joined text in front of part `i`: the earlier parts and one separator. */
  function Before(parts: seq<string>, sep: string, i: nat): string
    requires i <= |parts|
  {
    if i == 0 then "" else Join(parts[..i], sep) + sep
  }

  /** The joined text behind part `i`: one separator and the later parts. */
  function After(parts: seq<string>, sep: string, i: nat): string
    requires i < |parts|
  {
    if i + 1 == |parts| then "" else sep + Join(parts[i + 1..], sep)
  }

  /** The joined text from part `i` on is part `i` and what follows it. */
  lemma JoinFrom(parts: seq<string>, sep: string, i: nat)
    requires i < |parts|
    ensures Join(parts[i..], sep) == parts[i] + After(parts, sep, i)
  {
    var tail := parts[i..];
    if i + 1 < |parts| {
      assert tail[1..] == parts[i + 1..];
    } else {
      assert tail == [parts[i]];
    }
  }

  /** Every part appears whole in the joined text, preceded by exactly the
      parts before it and followed by exactly the parts after it: the order
      of the list is the order of the text. */
  lemma {:induction false} JoinedInOrder(parts: seq<string>, sep: string, i: nat)
    requires i < |parts|
    ensures Join(parts, sep) == Before(parts, sep, i) + parts[i] + After(parts, sep, i)
  {
    var rest := After(parts, sep, i);
    if i == 0 {
      assert Join(parts, sep) == parts[0] + rest by {
        JoinFrom(parts, sep, 0);
        assert parts[0..] == parts;
      }
    } else {
      var front := Join(parts[..i], sep);
      assert Join(parts, sep) == front + sep + (parts[i] + rest) by {
        JoinSplit(parts, sep, i);
        JoinFrom(parts, sep, i);
      }
      assert front + sep + (parts[i] + rest) == (front + sep) + parts[i] + rest;
    }
  }

  /** The position that Python's list slicing and JavaScript's
      `Array.prototype.slice` give to a bound `i` on a sequence of length
      `n`: a negative bound counts from the end, and the result is clamped
      to `0..n`. */
  function SliceBound(i: int, n: nat): (b: nat)
    ensures b <= n
  {
    if i < 0 then (if n + i < 0 then 0 else n + i)
    else if i > n then n
    else i
  }

  /** `s[start:stop]` in Python, `s.slice(start, stop)` in JavaScript. */
  function Slice<T>(s: seq<T>, start: int, stop: int): (r: seq<T>)
    ensures |r| <= |s|
  {
    var lo, hi := SliceBound(start, |s|), SliceBound(stop, |s|);
    if lo < hi then s[lo..hi] else []
  }

  /** The last `n` entries of `s`, in their original order; all of `s` when it
      has at most `n`. */
  function Window<T>(s: seq<T>, n: nat): (r: seq<T>)
    ensures |r| == Min(n, |s|)
    ensures s == s[..|s| - |r|] + r
  {
    if |s| <= n then s else s[|s| - n..]
  }

  /** `s[-n:]` and `s.slice(-n)` keep the last `n` entries. */
  lemma SliceFromEndIsWindow<T>(s: seq<T>, n: nat)
    requires n > 0
    ensures Slice(s, -(n as int), |s|) == Window(s, n)
  {
  }

  /** `s[-(n+1):-1]` keeps the last `n` entries before the final one. */
  lemma SliceBeforeLastIsWindow<T>(s: seq<T>, n: nat)
    requires |s| > 0
    ensures Slice(s, -(n as int + 1), -1) == Window(s[..|s| - 1], n)
  {
  }

  /** Keeping the last `n` entries, appending, and keeping the last `n` again
      gives the last `n` of everything appended: trimming early loses nothing
      that a later trim would have kept. */
  lemma WindowOfAppend<T>(s: seq<T>, t: seq<T>, n: nat)
    ensures Window(Window(s, n) + t, n) == Window(s + t, n)
  {
    var w := Window(s, n);
    assert s + t == s[..|s| - |w|] + (w + t);
  }

  /** Dropping entries from the front that the window would drop anyway
      leaves the window unchanged. */
  lemma WindowOfSuffix<T>(s: seq<T>, k: nat, n: nat)
    requires k + n <= |s|
    ensures Window(s[k..], n) == Window(s, n) == s[|s| - n..]
  {
    assert s[k..][|s| - k - n..] == s[|s| - n..];
  }

  /** Python's `s.endswith(suffix)`. */
  function EndsWith(s: string, suffix: string): (r: bool)
    ensures r ==> |suffix| <= |s| && s == s[..|s| - |suffix|] + suffix
    ensures forall p: string {:trigger p + suffix} :: p + suffix == s ==> r
  {
    |suffix| <= |s| && s[|s| - |suffix|..] == suffix
  }

  const ExcerptLength: nat := 300
  const Ellipsis := "..."

  /** A source excerpt as the back-ends show it: the first 300 characters of a
      passage (all of it when shorter), followed by "..." in every case. */
  function Excerpt(text: string): (r: string)
    ensures |r| == Min(|text|, ExcerptLength) + |Ellipsis|
    ensures r[..|r| - |Ellipsis|] <= text
    ensures r[|r| - |Ellipsis|..] == Ellipsis
    ensures |text| <= ExcerptLength ==> r == text + Ellipsis
  {
    Slice(text, 0, ExcerptLength) + Ellipsis
  }
}
