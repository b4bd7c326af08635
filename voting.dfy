/** `get_predicted_category` of src/python/models/algorithm.py: the neighbour vote
    that turns the categories and similarities of the nearest stored records into
    one category and a confidence. */
module Voting {
  import opened Common

  /** `np.argmax`: the first index holding the largest similarity. */
  function ArgMax(s: seq<real>): (m: nat)
    requires |s| > 0
    ensures m < |s|
    ensures forall i :: 0 <= i < |s| ==> s[i] <= s[m]
    ensures forall i :: 0 <= i < m ==> s[i] < s[m]
  {
    if |s| == 1 then 0
    else
      var m := 1 + ArgMax(s[1..]);
      if s[0] >= s[m] then 0 else m
  }

  /** The categories whose similarity is at least the threshold, in neighbour order. */
  function Kept(categories: seq<string>, similarities: seq<real>, threshold: real): (kept: seq<string>)
    requires |similarities| == |categories|
    ensures |kept| <= |categories|
  {
    if categories == [] then []
    else (if similarities[0] >= threshold then [categories[0]] else [])
         + Kept(categories[1..], similarities[1..], threshold)
  }

  /** A category survives the filter iff some neighbour with that category has a
      similarity at or above the threshold (equality keeps it). */
  lemma {:induction false} KeptMembers(categories: seq<string>, similarities: seq<real>, threshold: real, c: string)
    requires |similarities| == |categories|
    ensures c in Kept(categories, similarities, threshold) <==>
            exists i :: 0 <= i < |categories| && categories[i] == c && similarities[i] >= threshold
  {
    if categories != [] {
      KeptMembers(categories[1..], similarities[1..], threshold, c);
      if c in Kept(categories[1..], similarities[1..], threshold) {
        var i :| 0 <= i < |categories| - 1 && categories[1..][i] == c && similarities[1..][i] >= threshold;
        assert categories[i + 1] == c && similarities[i + 1] >= threshold;
      }
      if exists i :: 0 <= i < |categories| && categories[i] == c && similarities[i] >= threshold {
        var i :| 0 <= i < |categories| && categories[i] == c && similarities[i] >= threshold;
        if i > 0 {
          assert categories[1..][i - 1] == c && similarities[1..][i - 1] >= threshold;
        }
      }
    }
  }

  /** Every kept category equals the first one. */
  predicate Unanimous(kept: seq<string>)
  {
    forall i :: 0 <= i < |kept| ==> kept[i] == kept[0]
  }

  /** `len(set(kept)) == 1` says exactly that a non-empty list is unanimous. */
  lemma DistinctOneIffUnanimous(kept: seq<string>)
    requires kept != []
    ensures |set c | c in kept| == 1 <==> Unanimous(kept)
  {
    var s := set c | c in kept;
    if Unanimous(kept) {
      assert s == {kept[0]};
    } else {
      var i :| 0 <= i < |kept| && kept[i] != kept[0];
      assert {kept[0], kept[i]} <= s;
      assert |s - {kept[0]}| >= 1 by {
        assert kept[i] in s - {kept[0]};
      }
    }
  }

  /** Index of the first occurrence of `x`. */
  function FirstIndex(s: seq<string>, x: string): (i: nat)
    requires x in s
    ensures i < |s| && s[i] == x && x !in s[..i]
  {
    if s[0] == x then 0 else 1 + FirstIndex(s[1..], x)
  }

  /** `c` wins the plurality vote over `kept`: it occurs there, no category occurs
      more often, and any category occurring as often is first seen no earlier. */
  predicate IsPluralityWinner(kept: seq<string>, c: string)
  {
    && c in kept
    && (forall d :: d in kept ==> Occurrences(kept, d) <= Occurrences(kept, c))
    && (forall j :: 0 <= j < |kept| && Occurrences(kept, kept[j]) == Occurrences(kept, c) ==> FirstIndex(kept, c) <= j)
  }

  /** The vote has at most one winner. */
  lemma PluralityWinnerUnique(kept: seq<string>, c1: string, c2: string)
    requires IsPluralityWinner(kept, c1) && IsPluralityWinner(kept, c2)
    ensures c1 == c2
  {
    var j1 := FirstIndex(kept, c1);
    var j2 := FirstIndex(kept, c2);
    assert Occurrences(kept, c1) == Occurrences(kept, c2);
    assert j1 <= j2 && j2 <= j1;
  }

  /** A list that is not unanimous has no category filling all of it. */
  lemma {:induction false} OccurrencesBelowLength(s: seq<string>, c: string, j: nat)
    requires j < |s| && s[j] != c
    ensures Occurrences(s, c) < |s|
  {
    assert s == s[..j] + [s[j]] + s[j + 1..];
    assert multiset(s) == multiset(s[..j]) + multiset([s[j]]) + multiset(s[j + 1..]);
  }

  /** The first occurrence of anything in a prefix lies inside that prefix. */
  lemma FirstIndexInPrefix(s: seq<string>, i: nat, x: string)
    requires i <= |s| && x in s[..i]
    ensures FirstIndex(s, x) < i
  {
    var k :| 0 <= k < i && s[..i][k] == x;
    FirstIndexBound(s, x, k);
  }

  /** The answer of the vote of lines 14-47 on `categories` and `similarities`:
      no neighbours gives (None, 0.0); a best similarity below the threshold gives the
      category holding it with that similarity; otherwise the neighbours at or above
      the threshold vote, and a unanimous vote gives their category with the best
      similarity, any other the plurality winner with its share of the votes. */
  predicate IsVote(categories: seq<string>, similarities: seq<real>, threshold: real,
                   category: Option<string>, confidence: real)
    requires |similarities| == |categories|
  {
    && (categories == [] ==> category == None && confidence == 0.0)
    && (categories != [] && similarities[ArgMax(similarities)] < threshold ==>
          category == Some(categories[ArgMax(similarities)]) && confidence == similarities[ArgMax(similarities)])
    && (categories != [] && similarities[ArgMax(similarities)] >= threshold ==>
          var kept := Kept(categories, similarities, threshold);
          && kept != []
          && (Unanimous(kept) ==> category == Some(kept[0]) && confidence == similarities[ArgMax(similarities)])
          && (!Unanimous(kept) ==>
                && category.Some? && IsPluralityWinner(kept, category.value)
                && confidence == Occurrences(kept, category.value) as real / |kept| as real))
  }

  /** The vote has exactly one answer: two answers to the same neighbours agree. */
  lemma IsVoteUnique(categories: seq<string>, similarities: seq<real>, threshold: real,
                     c1: Option<string>, f1: real, c2: Option<string>, f2: real)
    requires |similarities| == |categories|
    requires IsVote(categories, similarities, threshold, c1, f1)
    requires IsVote(categories, similarities, threshold, c2, f2)
    ensures c1 == c2 && f1 == f2
  {
    if categories != [] && similarities[ArgMax(similarities)] >= threshold {
      var kept := Kept(categories, similarities, threshold);
      if !Unanimous(kept) {
        PluralityWinnerUnique(kept, c1.value, c2.value);
      }
    }
  }

  /** The vote of lines 14-47: no neighbours gives (None, 0.0); a best similarity below
      the threshold gives the category holding it; otherwise the neighbours at or
      above the threshold vote: a unanimous vote gives that category with the best
      similarity, any other gives the plurality winner (ties go to the category seen
      first) with its share of the votes as confidence. */
  method GetPredictedCategory(categories: seq<string>, similarities: seq<real>, threshold: real)
    returns (category: Option<string>, confidence: real)
    requires |similarities| == |categories|
    ensures IsVote(categories, similarities, threshold, category, confidence)
    ensures categories != [] && similarities[ArgMax(similarities)] >= threshold ==>
              (!Unanimous(Kept(categories, similarities, threshold)) ==> 0.0 < confidence < 1.0)
    ensures category.Some? ==> category.value in categories
  {
    if |categories| == 0 {
      return None, 0.0;
    }
    var m := ArgMax(similarities);
    var maxSimilarity := similarities[m];
    if maxSimilarity < threshold {
      return Some(categories[m]), maxSimilarity;
    }
    var kept := Kept(categories, similarities, threshold);
    KeptMembers(categories, similarities, threshold, categories[m]);
    assert categories[m] in kept;
    DistinctOneIffUnanimous(kept);
    if |set c | c in kept| == 1 {
      KeptMembers(categories, similarities, threshold, kept[0]);
      return Some(kept[0]), maxSimilarity;
    }

    var winner, share := Vote(kept);
    KeptMembers(categories, similarities, threshold, winner);
    return Some(winner), share;
  }

  /** Lines 37-45: the plurality vote over a list that is not unanimous, with the
      winner's share of the votes as confidence. */
  method Vote(kept: seq<string>) returns (winner: string, confidence: real)
    requires kept != [] && !Unanimous(kept)
    ensures IsPluralityWinner(kept, winner)
    ensures confidence == Occurrences(kept, winner) as real / |kept| as real
    ensures 0.0 < confidence < 1.0
  {
    var counts, keys := CountVotes(kept);
    assert kept[0] in keys;
    var bi := FirstMaxKey(counts, keys);
    winner := keys[bi];
    TallyWinner(kept, counts, keys, bi);
    var o :| 0 <= o < |kept| && kept[o] != kept[0];
    if winner == kept[0] {
      OccurrencesBelowLength(kept, winner, o);
    } else {
      OccurrencesBelowLength(kept, winner, 0);
    }
    assert winner in multiset(kept);
    ShareBounds(counts[winner], |kept|);
    confidence := counts[winner] as real / |kept| as real;
  }

  /** A share of 1 to n - 1 votes out of n lies strictly between 0 and 1. */
  lemma ShareBounds(votes: nat, total: nat)
    requires 1 <= votes < total
    ensures 0.0 < votes as real / total as real < 1.0
  {
    assert votes as real < total as real;
  }

  /** `counts` and `keys` are the dict `category_counts` built over `kept`: the keys
      are the distinct categories in order of first appearance, each counted. */
  ghost predicate IsTally(kept: seq<string>, counts: map<string, nat>, keys: seq<string>)
  {
    && (forall c :: c in counts <==> c in kept)
    && (forall c :: c in counts <==> c in keys)
    && (forall c :: c in counts ==> counts[c] == Occurrences(kept, c))
    && (forall a :: 0 <= a < |keys| ==> keys[a] in kept)
    && (forall a, b :: 0 <= a < b < |keys| ==> FirstIndex(kept, keys[a]) < FirstIndex(kept, keys[b]))
  }

  /** The tally of the first `i` kept categories. */
  ghost predicate TallyUpTo(kept: seq<string>, i: nat, counts: map<string, nat>, keys: seq<string>)
    requires i <= |kept|
  {
    && (forall c :: c in counts <==> c in kept[..i])
    && (forall c :: c in counts ==> counts[c] == Occurrences(kept[..i], c))
    && (forall c :: c in counts <==> c in keys)
    && (forall a :: 0 <= a < |keys| ==> keys[a] in kept[..i] && keys[a] in kept)
    && (forall a, b :: 0 <= a < b < |keys| ==> FirstIndex(kept, keys[a]) < FirstIndex(kept, keys[b]))
  }

  /** Lines 37-39: one pass over the kept categories counting each. */
  method CountVotes(kept: seq<string>) returns (counts: map<string, nat>, keys: seq<string>)
    ensures IsTally(kept, counts, keys)
  {
    counts := map[];
    keys := [];
    var i := 0;
    while i < |kept|
      invariant 0 <= i <= |kept|
      invariant TallyUpTo(kept, i, counts, keys)
    {
      var c := kept[i];
      if c in counts {
        TallySeen(kept, i, counts, keys);
        counts := counts[c := counts[c] + 1];
      } else {
        TallyNew(kept, i, counts, keys);
        counts := counts[c := 1];
        keys := keys + [c];
      }
      i := i + 1;
    }
    assert kept[..|kept|] == kept;
  }

  /** Counting an already-seen category. */
  lemma TallySeen(kept: seq<string>, i: nat, counts: map<string, nat>, keys: seq<string>)
    requires i < |kept| && TallyUpTo(kept, i, counts, keys) && kept[i] in counts
    ensures TallyUpTo(kept, i + 1, counts[kept[i] := counts[kept[i]] + 1], keys)
  {
    PrefixStep(kept, i);
    forall a | 0 <= a < |keys| ensures keys[a] in kept[..i + 1] {
      assert keys[a] in kept[..i];
    }
  }

  /** Counting a category seen for the first time: it is the newest key. */
  lemma TallyNew(kept: seq<string>, i: nat, counts: map<string, nat>, keys: seq<string>)
    requires i < |kept| && TallyUpTo(kept, i, counts, keys) && kept[i] !in counts
    ensures TallyUpTo(kept, i + 1, counts[kept[i] := 1], keys + [kept[i]])
  {
    PrefixStep(kept, i);
    var c := kept[i];
    forall a | 0 <= a < |keys|
      ensures FirstIndex(kept, keys[a]) < i
    {
      FirstIndexInPrefix(kept, i, keys[a]);
    }
    assert FirstIndex(kept, c) == i by {
      FirstIndexInPrefix(kept, i + 1, c);
    }
    var keys' := keys + [c];
    forall a | 0 <= a < |keys'| ensures keys'[a] in kept[..i + 1] && keys'[a] in kept {
      if a < |keys| {
        assert keys'[a] == keys[a];
      }
    }
    forall a, b | 0 <= a < b < |keys'| ensures FirstIndex(kept, keys'[a]) < FirstIndex(kept, keys'[b]) {
      assert keys'[a] == keys[a];
      if b < |keys| {
        assert keys'[b] == keys[b];
      }
    }
    var counts' := counts[c := 1];
    assert Occurrences(kept[..i], c) == 0;
    forall d | d in counts' ensures counts'[d] == Occurrences(kept[..i + 1], d) {
      if d != c {
        assert counts'[d] == counts[d];
      }
    }
  }

  /** Extending a prefix by one element adds that element once. */
  lemma PrefixStep(s: seq<string>, i: nat)
    requires i < |s|
    ensures forall d :: d in s[..i + 1] <==> d in s[..i] || d == s[i]
    ensures forall d :: Occurrences(s[..i + 1], d) == Occurrences(s[..i], d) + (if d == s[i] then 1 else 0)
  {
    assert s[..i + 1] == s[..i] + [s[i]];
  }

  /** `max(category_counts, key=category_counts.get)`: the position of the first key
      whose count no other key exceeds. */
  method FirstMaxKey(counts: map<string, nat>, keys: seq<string>) returns (bi: nat)
    requires keys != [] && forall k :: 0 <= k < |keys| ==> keys[k] in counts
    ensures bi < |keys|
    ensures forall k :: 0 <= k < |keys| ==> counts[keys[k]] <= counts[keys[bi]]
    ensures forall k :: 0 <= k < bi ==> counts[keys[k]] < counts[keys[bi]]
  {
    bi := 0;
    var j := 1;
    while j < |keys|
      invariant 1 <= j <= |keys|
      invariant 0 <= bi < j
      invariant forall k :: 0 <= k < j ==> counts[keys[k]] <= counts[keys[bi]]
      invariant forall k :: 0 <= k < bi ==> counts[keys[k]] < counts[keys[bi]]
    {
      if counts[keys[j]] > counts[keys[bi]] {
        bi := j;
      }
      j := j + 1;
    }
  }

  /** The first key of largest count in a tally is the plurality winner. */
  lemma TallyWinner(kept: seq<string>, counts: map<string, nat>, keys: seq<string>, bi: nat)
    requires IsTally(kept, counts, keys)
    requires bi < |keys|
    requires forall k :: 0 <= k < |keys| ==> counts[keys[k]] <= counts[keys[bi]]
    requires forall k :: 0 <= k < bi ==> counts[keys[k]] < counts[keys[bi]]
    ensures IsPluralityWinner(kept, keys[bi])
  {
    var best := keys[bi];
    forall d | d in kept
      ensures Occurrences(kept, d) <= Occurrences(kept, best)
    {
      var k :| 0 <= k < |keys| && keys[k] == d;
    }
    forall jj | 0 <= jj < |kept| && Occurrences(kept, kept[jj]) == Occurrences(kept, best)
      ensures FirstIndex(kept, best) <= jj
    {
      assert kept[jj] in kept;
      assert kept[jj] in keys;
      var x :| 0 <= x < |keys| && keys[x] == kept[jj];
      FirstIndexBound(kept, kept[jj], jj);
    }
  }

  lemma FirstIndexBound(s: seq<string>, x: string, j: nat)
    requires j < |s| && s[j] == x
    ensures FirstIndex(s, x) <= j
  {
  }
}
