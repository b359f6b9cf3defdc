/** Sequence helpers: joining with a separator, subsequences, element sets. */
module Sequences {

  /** The elements of `s` joined by `sep`: `a`, `a+sep+b`, ... (the empty sequence gives ""). */
  function Join(sep: string, names: seq<string>): string
  {
    if names == [] then ""
    else if |names| == 1 then names[0]
    else names[0] + sep + Join(sep, names[1..])
  }

  /** Appending one more name appends the separator and that name. */
  lemma {:induction false} JoinSnoc(sep: string, names: seq<string>, name: string)
    requires names != []
    ensures Join(sep, names + [name]) == Join(sep, names) + sep + name
  {
    if |names| == 1 {
      assert names + [name] == [names[0], name];
      assert ([names[0], name])[1..] == [name];
    } else {
      assert (names + [name])[1..] == names[1..] + [name];
      JoinSnoc(sep, names[1..], name);
    }
  }

  /** Joining a concatenation joins the two halves with one separator between them. */
  lemma {:induction false} JoinAppend(sep: string, xs: seq<string>, ys: seq<string>)
    requires xs != [] && ys != []
    ensures Join(sep, xs + ys) == Join(sep, xs) + sep + Join(sep, ys)
  {
    if |xs| == 1 {
      assert (xs + ys)[1..] == ys;
    } else {
      assert (xs + ys)[1..] == xs[1..] + ys;
      JoinAppend(sep, xs[1..], ys);
    }
  }

  /** The set of elements of a sequence. */
  function Elements<T>(s: seq<T>): set<T>
  {
    set x | x in s
  }

  /** `s` can be obtained from `t` by deleting elements, keeping the order of the rest. */
  predicate IsSubsequence<T(==)>(s: seq<T>, t: seq<T>)
    decreases |t|
  {
    if s == [] then true
    else if t == [] then false
    else
      || (s[|s| - 1] == t[|t| - 1] && IsSubsequence(s[..|s| - 1], t[..|t| - 1]))
      || IsSubsequence(s, t[..|t| - 1])
  }

  lemma SubsequenceExtend<T>(s: seq<T>, t: seq<T>, x: T)
    requires IsSubsequence(s, t)
    ensures IsSubsequence(s, t + [x])
    ensures IsSubsequence(s + [x], t + [x])
  {
    assert (t + [x])[..|t|] == t;
    assert (s + [x])[..|s|] == s;
  }

  lemma {:induction false} SubsequenceDropLast<T>(s: seq<T>, t: seq<T>)
    requires s != [] && IsSubsequence(s, t)
    ensures IsSubsequence(s[..|s| - 1], t)
    decreases |t|
  {
    var s' := s[..|s| - 1];
    var t' := t[..|t| - 1];
    assert t == t' + [t[|t| - 1]];
    if s' == [] {
    } else if s[|s| - 1] == t[|t| - 1] && IsSubsequence(s', t') {
      SubsequenceExtend(s', t', t[|t| - 1]);
    } else {
      SubsequenceDropLast(s, t');
      SubsequenceExtend(s', t', t[|t| - 1]);
    }
  }
}
