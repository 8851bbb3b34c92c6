/** The Python string operations the bootstrap code relies on:
    `str.startswith`, `str.endswith`, `str.partition` and `str.join`. */
module PyText {
  import opened Outcomes

  predicate StartsWith(s: string, prefix: string) {
    |prefix| <= |s| && s[..|prefix|] == prefix
  }

  predicate EndsWith(s: string, suffix: string) {
    |suffix| <= |s| && s[|s| - |suffix|..] == suffix
  }

  /** `m` occurs in `s` starting at index `i`. */
  predicate OccursAt(s: string, m: string, i: nat) {
    i + |m| <= |s| && s[i..i + |m|] == m
  }

  /** The first index at or after `i` where `m` occurs in `s`, as `str.find` would report it. */
  function FindFrom(s: string, m: string, i: nat): (r: Option<nat>)
    requires i <= |s|
    ensures r.Some? ==> i <= r.value && OccursAt(s, m, r.value)
    ensures r.Some? ==> forall j :: i <= j < r.value ==> !OccursAt(s, m, j)
    ensures r.None? ==> forall j :: i <= j <= |s| ==> !OccursAt(s, m, j)
    decreases |s| - i
  {
    if OccursAt(s, m, i) then Some(i)
    else if i == |s| then None
    else FindFrom(s, m, i + 1)
  }

  /** `s.partition(sep)`: the text before the first `sep`, the separator itself and the
      text after it; `(s, "", "")` when `sep` does not occur. Python raises ValueError
      for an empty separator, so callers must pass a non-empty one. */
  function Partition(s: string, sep: string): (r: (string, string, string))
    requires |sep| > 0
    ensures r.0 + r.1 + r.2 == s
    ensures r.1 == sep || (r.1 == "" && r.2 == "")
    ensures r.1 == "" <==> forall j :: 0 <= j <= |s| ==> !OccursAt(s, sep, j)
    ensures r.1 == sep ==> OccursAt(s, sep, |r.0|)
    ensures forall j :: 0 <= j < |r.0| ==> !OccursAt(s, sep, j)
  {
    match FindFrom(s, sep, 0)
    case None => (s, "", "")
    case Some(k) =>
      assert s == s[..k] + sep + s[k + |sep|..];
      (s[..k], sep, s[k + |sep|..])
  }

  /** Whatever precedes it, the text after the first separator is returned unchanged. */
  lemma {:induction false} PartitionAfterFirst(pre: string, sep: string, rest: string)
    requires |sep| > 0
    requires forall j :: 0 <= j < |pre| ==> !OccursAt(pre + sep + rest, sep, j)
    ensures Partition(pre + sep + rest, sep) == (pre, sep, rest)
  {
    var s := pre + sep + rest;
    assert s[|pre|..|pre| + |sep|] == sep;
    assert OccursAt(s, sep, |pre|);
    var r := Partition(s, sep);
    assert r.1 == sep;
    if |r.0| != |pre| {
      assert false;
    }
    assert r.0 == s[..|pre|] == pre;
    assert r.2 == s[|pre| + |sep|..] == rest;
  }

  /** `sep.join(xs)`. */
  function Join(xs: seq<string>, sep: string): string
  {
    if |xs| == 0 then ""
    else if |xs| == 1 then xs[0]
    else xs[0] + sep + Join(xs[1..], sep)
  }

  /** The index in `Join(xs, sep)` at which element `i` is written. */
  function Offset(xs: seq<string>, sep: string, i: nat): nat
    requires i <= |xs|
  {
    if i == 0 then 0 else |xs[0]| + |sep| + Offset(xs[1..], sep, i - 1)
  }

  lemma OccursAtAppend(a: string, b: string, m: string, k: nat)
    requires OccursAt(a, m, k)
    ensures OccursAt(a + b, m, k)
  {
    assert (a + b)[k..k + |m|] == a[k..k + |m|];
  }

  lemma OccursAtPrepend(a: string, b: string, m: string, k: nat)
    requires OccursAt(b, m, k)
    ensures OccursAt(a + b, m, |a| + k)
  {
    assert (a + b)[|a| + k..|a| + k + |m|] == b[k..k + |m|];
  }

  /** Every element is written, unchanged, at its offset in the joined text: a joined
      host list names every host. */
  lemma {:induction false} JoinListsEach(xs: seq<string>, sep: string, i: nat)
    requires i < |xs|
    ensures OccursAt(Join(xs, sep), xs[i], Offset(xs, sep, i))
  {
    if |xs| == 1 {
      assert Join(xs, sep) == xs[0];
      assert Join(xs, sep)[0..|xs[0]|] == xs[0];
    } else if i == 0 {
      assert Join(xs, sep) == xs[0] + (sep + Join(xs[1..], sep));
      assert OccursAt(xs[0], xs[0], 0) by { assert xs[0][0..|xs[0]|] == xs[0]; }
      OccursAtAppend(xs[0], sep + Join(xs[1..], sep), xs[0], 0);
    } else {
      JoinListsEach(xs[1..], sep, i - 1);
      assert xs[1..][i - 1] == xs[i];
      assert Join(xs, sep) == (xs[0] + sep) + Join(xs[1..], sep);
      OccursAtPrepend(xs[0] + sep, Join(xs[1..], sep), xs[i], Offset(xs[1..], sep, i - 1));
    }
  }
}
