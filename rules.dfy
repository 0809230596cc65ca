/**
 * Validation rules tagged by the granularity they check, and the selection of
 * the rules of one kind from an ordered rule list.
 */
module Rules {

  /** The granularity a rule validates: a class, a member (method or field), or an instruction. */
  datatype Kind = ClassKind | MemberKind | InstructionKind

  /**
   * A validation rule. What a rule checks is opaque here: it is identified by
   * `id`, and the model only records that it was invoked, on what, and when.
   */
  datatype Rule = ClassRule(id: string) | MemberRule(id: string) | InstructionRule(id: string)

  function KindOf(r: Rule): Kind
  {
    match r
    case ClassRule(_) => ClassKind
    case MemberRule(_) => MemberKind
    case InstructionRule(_) => InstructionKind
  }

  /**
   * The entries of `rules` that have kind `k`, in list order. This is the
   * selection that `processEntriesOfType<T>` makes when it runs its block on
   * each entry of type T.
   */
  function OfKind(rules: seq<Rule>, k: Kind): (sel: seq<Rule>)
    ensures |sel| <= |rules|
    ensures forall n :: 0 <= n < |sel| ==> KindOf(sel[n]) == k && sel[n] in rules
  {
    if rules == [] then []
    else (if KindOf(rules[0]) == k then [rules[0]] else []) + OfKind(rules[1..], k)
  }

  /** Extending a prefix of the list by one entry extends the selection by that entry when it has kind `k`. */
  lemma OfKindPrefixStep(rules: seq<Rule>, k: Kind, i: nat)
    requires i < |rules|
    ensures OfKind(rules[..i + 1], k) == OfKind(rules[..i], k) + (if KindOf(rules[i]) == k then [rules[i]] else [])
  {
    assert rules[..i + 1] == rules[..i] + [rules[i]];
    OfKindAppend(rules[..i], [rules[i]], k);
    assert [rules[i]][1..] == [];
  }

  /** Selecting from a concatenation selects from each part, keeping the parts in order. */
  lemma {:induction false} OfKindAppend(a: seq<Rule>, b: seq<Rule>, k: Kind)
    ensures OfKind(a + b, k) == OfKind(a, k) + OfKind(b, k)
  {
    if a == [] {
      assert a + b == b;
    } else {
      assert (a + b)[0] == a[0];
      assert (a + b)[1..] == a[1..] + b;
      OfKindAppend(a[1..], b, k);
    }
  }

  /**
   * Each rule occurs in the selection exactly as often as it occurs in the
   * list when it has kind `k`, and never otherwise.
   */
  lemma {:induction false} OfKindCount(rules: seq<Rule>, k: Kind, r: Rule)
    ensures multiset(OfKind(rules, k))[r] == if KindOf(r) == k then multiset(rules)[r] else 0
  {
    if rules != [] {
      OfKindCount(rules[1..], k, r);
      assert rules == [rules[0]] + rules[1..];
      assert multiset(rules) == multiset([rules[0]]) + multiset(rules[1..]);
      var head := if KindOf(rules[0]) == k then [rules[0]] else [];
      assert multiset(OfKind(rules, k)) == multiset(head) + multiset(OfKind(rules[1..], k));
    }
  }

  /** A rule is selected if and only if it is in the list and has kind `k`. */
  lemma {:induction false} OfKindMembership(rules: seq<Rule>, k: Kind, r: Rule)
    ensures r in OfKind(rules, k) <==> r in rules && KindOf(r) == k
  {
    OfKindCount(rules, k, r);
  }

  /** The position in the selection of the entry at index `i` of the list: the number of earlier entries of kind `k`. */
  function Rank(rules: seq<Rule>, k: Kind, i: nat): nat
    requires i <= |rules|
  {
    |OfKind(rules[..i], k)|
  }

  /** The entry at index `i`, when it has kind `k`, stands in the selection at position `Rank(rules, k, i)`. */
  lemma OfKindAt(rules: seq<Rule>, k: Kind, i: nat)
    requires i < |rules| && KindOf(rules[i]) == k
    ensures Rank(rules, k, i) < |OfKind(rules, k)|
    ensures OfKind(rules, k)[Rank(rules, k, i)] == rules[i]
  {
    assert rules == rules[..i] + ([rules[i]] + rules[i + 1..]);
    OfKindAppend(rules[..i], [rules[i]] + rules[i + 1..], k);
    OfKindAppend([rules[i]], rules[i + 1..], k);
    assert OfKind([rules[i]], k) == [rules[i]] by {
      assert [rules[i]][1..] == [];
    }
  }

  /** Later selected entries have larger ranks, so the selection keeps list order. */
  lemma RankIncreases(rules: seq<Rule>, k: Kind, i: nat, j: nat)
    requires i < j <= |rules| && KindOf(rules[i]) == k
    ensures Rank(rules, k, i) < Rank(rules, k, j)
  {
    var pre := rules[..j];
    assert pre[..i] == rules[..i];
    OfKindAt(pre, k, i);
  }

  /** Two entries of kind `k` appear in the selection in the order they have in the list. */
  lemma OfKindKeepsListOrder(rules: seq<Rule>, k: Kind, i: nat, j: nat)
    requires i < j < |rules| && KindOf(rules[i]) == k && KindOf(rules[j]) == k
    ensures exists p, q :: 0 <= p < q < |OfKind(rules, k)| && OfKind(rules, k)[p] == rules[i] && OfKind(rules, k)[q] == rules[j]
  {
    OfKindAt(rules, k, i);
    OfKindAt(rules, k, j);
    RankIncreases(rules, k, i, j);
    var p, q := Rank(rules, k, i), Rank(rules, k, j);
    assert 0 <= p < q < |OfKind(rules, k)| && OfKind(rules, k)[p] == rules[i] && OfKind(rules, k)[q] == rules[j];
  }
}
