/**
 * The two ways the handlers cut a `{...}` object out of a model's free
 * text: the non-greedy `/\{[\s\S]*?\}/` of cloudflare-ai/src/worker.ts and
 * the greedy `/\{[\s\S]*\}/` of netlify/functions/cloudflare.ts. Both are
 * written as scans for the two brace characters; `[\s\S]` matches every
 * character, so nothing else of the regular expression engine matters.
 */
module Braces {
  import opened JsValues

  /** The first position at or after `from` holding `c`. */
  function IndexOf(s: string, c: char, from: nat): (r: Option<nat>)
    requires from <= |s|
    ensures r.Some? ==> from <= r.value < |s| && s[r.value] == c
    ensures r.Some? ==> forall k :: from <= k < r.value ==> s[k] != c
    ensures r.None? ==> forall k :: from <= k < |s| ==> s[k] != c
    decreases |s| - from
  {
    if from == |s| then None
    else if s[from] == c then Some(from)
    else IndexOf(s, c, from + 1)
  }

  /** The last position of `s` holding `c`. */
  function LastIndexOf(s: string, c: char): (r: Option<nat>)
    ensures r.Some? ==> r.value < |s| && s[r.value] == c
    ensures r.Some? ==> forall k :: r.value < k < |s| ==> s[k] != c
    ensures r.None? ==> forall k :: 0 <= k < |s| ==> s[k] != c
  {
    if s == [] then None
    else if s[|s| - 1] == c then Some(|s| - 1)
    else LastIndexOf(s[..|s| - 1], c)
  }

  /** Positions `i < j` of an opening and a closing brace: a span either expression can match. */
  predicate Candidate(s: string, i: int, j: int) {
    0 <= i < j < |s| && s[i] == '{' && s[j] == '}'
  }

  /** The match of `/\{[\s\S]*?\}/`: the first `{` and the first `}` after it. */
  function LazyObject(s: string): Option<string> {
    match IndexOf(s, '{', 0)
    case None => None
    case Some(i) =>
      match IndexOf(s, '}', i + 1)
      case None => None
      case Some(j) => Some(s[i..j + 1])
  }

  /** The match of `/\{[\s\S]*\}/`: the first `{` and the last `}` after it. */
  function GreedyObject(s: string): Option<string> {
    match IndexOf(s, '{', 0)
    case None => None
    case Some(i) =>
      match LastIndexOf(s, '}')
      case None => None
      case Some(j) => if i < j then Some(s[i..j + 1]) else None
  }

  /** Every opening brace sits at or after the first one. */
  lemma FirstOpen(s: string, i: nat)
    requires IndexOf(s, '{', 0) == Some(i)
    ensures forall i', j' :: Candidate(s, i', j') ==> i <= i'
  {
  }

  /**
   * The non-greedy match exists exactly when some `{` has a `}` after it;
   * it starts at the leftmost such `{` and ends at the first `}` after it.
   */
  lemma LazyObjectSpec(s: string)
    ensures LazyObject(s).Some? <==> exists i, j :: Candidate(s, i, j)
    ensures LazyObject(s).Some? ==>
              exists i, j ::
                && Candidate(s, i, j) && LazyObject(s).value == s[i..j + 1]
                && (forall i', j' :: Candidate(s, i', j') ==> i <= i')
                && (forall k :: i < k < j ==> s[k] != '}')
  {
    match IndexOf(s, '{', 0)
    case None =>
    case Some(i) =>
      match IndexOf(s, '}', i + 1)
      case None =>
        FirstOpen(s, i);
      case Some(j) =>
        FirstOpen(s, i);
        assert Candidate(s, i, j);
  }

  /**
   * The greedy match exists exactly when some `{` has a `}` after it; it
   * starts at the leftmost such `{` and ends at the rightmost `}`.
   */
  lemma GreedyObjectSpec(s: string)
    ensures GreedyObject(s).Some? <==> exists i, j :: Candidate(s, i, j)
    ensures GreedyObject(s).Some? ==>
              exists i, j ::
                && Candidate(s, i, j) && GreedyObject(s).value == s[i..j + 1]
                && (forall i', j' :: Candidate(s, i', j') ==> i <= i' && j' <= j)
  {
    match IndexOf(s, '{', 0)
    case None =>
    case Some(i) =>
      match LastIndexOf(s, '}')
      case None =>
      case Some(j) =>
        FirstOpen(s, i);
        if i < j {
          assert Candidate(s, i, j);
        }
  }

  /**
   * The two rules find a match on the same texts, from the same `{`; the
   * non-greedy match is a prefix of the greedy one.
   */
  lemma LazyPrefixOfGreedy(s: string)
    ensures LazyObject(s).Some? <==> GreedyObject(s).Some?
    ensures LazyObject(s).Some? ==>
              var lazy, greedy := LazyObject(s).value, GreedyObject(s).value;
              |lazy| <= |greedy| && greedy[..|lazy|] == lazy
  {
    LazyObjectSpec(s);
    GreedyObjectSpec(s);
    if LazyObject(s).Some? {
      var i := IndexOf(s, '{', 0).value;
      var j := IndexOf(s, '}', i + 1).value;
      var l := LastIndexOf(s, '}').value;
      assert j <= l;
      assert s[i..l + 1][..j + 1 - i] == s[i..j + 1];
    }
  }

  /** A nested object is cut at its inner `}` by the non-greedy rule. */
  lemma NestedObjectLazy()
    ensures LazyObject("x {\"a\":{\"b\":1}} y") == Some("{\"a\":{\"b\":1}")
  {
    var s := "x {\"a\":{\"b\":1}} y";
    assert s[0] != '{' && s[1] != '{' && s[2] == '{';
    assert forall k :: 3 <= k < 13 ==> s[k] != '}';
    assert s[13] == '}';
    assert IndexOf(s, '{', 0) == Some(2);
    assert IndexOf(s, '}', 3) == Some(13);
    assert s[2..14] == "{\"a\":{\"b\":1}";
  }

  /** The same nested object is kept whole by the greedy rule. */
  lemma NestedObjectGreedy()
    ensures GreedyObject("x {\"a\":{\"b\":1}} y") == Some("{\"a\":{\"b\":1}}")
  {
    var s := "x {\"a\":{\"b\":1}} y";
    assert s[0] != '{' && s[1] != '{' && s[2] == '{';
    assert IndexOf(s, '{', 0) == Some(2);
    assert s[14] == '}';
    assert forall k :: 14 < k < |s| ==> s[k] != '}';
    assert LastIndexOf(s, '}') == Some(14);
    assert s[2..15] == "{\"a\":{\"b\":1}}";
  }
}
