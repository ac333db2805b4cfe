/** Model of `PowerRanker` (src/power.js): the pairwise preference matrix,
    built once from the votes, and the damped power iteration that turns it
    into a ranking of the items. */
module Power {
  import opened Results

  type Item = string

  /** One vote. `value >= 0.5` is flow from `source` towards `target` with
      strength `value`; below 0.5 it is flow back with strength `1 - value`. */
  datatype Preference = Preference(target: Item, source: Item, value: real)

  datatype Error =
    | TooFewItems          // "Cannot rank less than two items"
    | MismatchedArguments  // eigenvector length differs from the item count
    | NotSquare            // "Matrix must be square!"

  /** The items of a JavaScript `Set`: no item occurs twice. */
  predicate Distinct(items: seq<Item>)
  {
    forall i, j :: 0 <= i < j < |items| ==> items[i] != items[j]
  }

  /** Every preference names two items of the ranker. */
  predicate KnownItems(items: seq<Item>, prefs: seq<Preference>)
  {
    forall k :: 0 <= k < |prefs| ==> prefs[k].source in items && prefs[k].target in items
  }

  /** Every preference names two keys of the item map. */
  predicate Indexed(ix: map<Item, nat>, prefs: seq<Preference>)
  {
    forall k :: 0 <= k < |prefs| ==> prefs[k].source in ix && prefs[k].target in ix
  }

  // ---------------------------------------------------------------------
  // Item indexing (`#toitemMap`)
  // ---------------------------------------------------------------------

  /** Item -> matrix index: each item is mapped to its position in `items`,
      the order the sort leaves them in. */
  function ToItemMap(items: seq<Item>): map<Item, nat>
  {
    if |items| == 0 then map[]
    else ToItemMap(items[..|items| - 1])[items[|items| - 1] := |items| - 1]
  }

  /** `ix` maps each of `items` to its position, and nothing else. */
  ghost predicate IndexesItems(ix: map<Item, nat>, items: seq<Item>)
  {
    && |ix| == |items|
    && (forall i :: 0 <= i < |items| ==> items[i] in ix && ix[items[i]] == i)
    && (forall x :: x in ix ==> ix[x] < |items| && items[ix[x]] == x)
  }

  /** Over distinct items the map is a bijection between the items and their
      positions: it has one key per item, and each key leads back to itself. */
  lemma {:induction false} ItemMapIndexes(items: seq<Item>)
    requires Distinct(items)
    ensures IndexesItems(ToItemMap(items), items)
  {
    if |items| > 0 {
      var init, last := items[..|items| - 1], items[|items| - 1];
      assert Distinct(init);
      ItemMapIndexes(init);
      ItemMapStep(items);
    }
  }

  /** Adding an item not yet indexed at the next position keeps the map
      a bijection. */
  lemma ItemMapStep(items: seq<Item>)
    requires |items| > 0 && Distinct(items)
    requires IndexesItems(ToItemMap(items[..|items| - 1]), items[..|items| - 1])
    ensures IndexesItems(ToItemMap(items), items)
  {
    var init, last := items[..|items| - 1], items[|items| - 1];
    var prev, ix := ToItemMap(init), ToItemMap(items);
    assert ix == prev[last := |init|];
    forall x | x in prev
      ensures x != last
    {
      assert items[prev[x]] == init[prev[x]] == x;
    }
    forall i | 0 <= i < |items|
      ensures items[i] in ix && ix[items[i]] == i
    {
      if i < |init| {
        assert items[i] == init[i] != last;
        assert ix[items[i]] == prev[init[i]] == i;
      } else {
        assert i == |init| && items[i] == last;
      }
    }
    forall x | x in ix
      ensures ix[x] < |items| && items[ix[x]] == x
    {
      if x != last {
        assert items[prev[x]] == init[prev[x]];
      }
    }
  }

  /** Preferences over known items name keys of the item map. */
  lemma KnownItemsAreIndexed(items: seq<Item>, prefs: seq<Preference>)
    requires Distinct(items) && KnownItems(items, prefs)
    ensures Indexed(ToItemMap(items), prefs)
  {
    ItemMapIndexes(items);
    forall x | x in items
      ensures x in ToItemMap(items)
    {
      var i :| 0 <= i < |items| && items[i] == x;
    }
  }

  // ---------------------------------------------------------------------
  // Sums (`#sum`, `#sumColumns`)
  // ---------------------------------------------------------------------

  /** `#sum`: the total of a sequence, added from the left starting at zero. */
  function Sum(s: seq<real>): real
  {
    if |s| == 0 then 0.0 else Sum(s[..|s| - 1]) + s[|s| - 1]
  }

  /** An affine image sums affinely: `Σ (a·x[j] + b) = a·Σ x + |x|·b`. */
  lemma {:induction false} SumAffine(x: seq<real>, y: seq<real>, a: real, b: real)
    requires |y| == |x|
    requires forall j :: 0 <= j < |x| ==> y[j] == a * x[j] + b
    ensures Sum(y) == a * Sum(x) + |x| as real * b
  {
    if |x| > 0 {
      var k := |x| - 1;
      SumAffine(x[..k], y[..k], a, b);
      calc {
        Sum(y);
        Sum(y[..k]) + y[k];
        a * Sum(x[..k]) + k as real * b + (a * x[k] + b);
        a * (Sum(x[..k]) + x[k]) + (k + 1) as real * b;
      }
    }
  }

  /** Sums add pointwise. */
  lemma {:induction false} SumAdd(x: seq<real>, y: seq<real>, z: seq<real>)
    requires |x| == |y| == |z|
    requires forall j :: 0 <= j < |z| ==> z[j] == x[j] + y[j]
    ensures Sum(z) == Sum(x) + Sum(y)
  {
    if |z| > 0 {
      var k := |z| - 1;
      SumAdd(x[..k], y[..k], z[..k]);
    }
  }

  /** A sum of non-negative terms is non-negative. */
  lemma {:induction false} SumNonNegative(s: seq<real>)
    requires forall j :: 0 <= j < |s| ==> s[j] >= 0.0
    ensures Sum(s) >= 0.0
  {
    if |s| > 0 {
      SumNonNegative(s[..|s| - 1]);
    }
  }

  /** The sum of a sequence that is `a` at position `c` and `b` elsewhere. */
  lemma {:induction false} SumAllButOne(s: seq<real>, c: nat, a: real, b: real)
    requires forall r :: 0 <= r < |s| ==> s[r] == (if r == c then a else b)
    ensures Sum(s) == if c < |s| then a + (|s| - 1) as real * b else |s| as real * b
  {
    if |s| > 0 {
      SumAllButOne(s[..|s| - 1], c, a, b);
    }
  }

  /** An n-by-n matrix of rows. */
  predicate IsSquare(m: seq<seq<real>>, n: nat)
  {
    |m| == n && forall i :: 0 <= i < n ==> |m[i]| == n
  }

  /** Column `c` of `m`, a row of `m`'s transpose. */
  function ColumnOf(m: seq<seq<real>>, c: nat): seq<real>
    requires forall r :: 0 <= r < |m| ==> c < |m[r]|
  {
    seq(|m|, r requires 0 <= r < |m| => m[r][c])
  }

  /** `#sumColumns`: the total of each column, read as a row of the transpose. */
  function SumColumns(m: seq<seq<real>>, n: nat): (sums: seq<real>)
    requires IsSquare(m, n)
    ensures |sums| == n
  {
    seq(n, c requires 0 <= c < n => Sum(ColumnOf(m, c)))
  }

  /** The copy `_powerMethod` takes with `clone`: the cells of a two-dimensional
      array as rows. */
  function Snapshot(a: array2<real>): (m: seq<seq<real>>)
    reads a
    ensures |m| == a.Length0
    ensures forall i :: 0 <= i < a.Length0 ==> |m[i]| == a.Length1
    ensures forall i, j :: 0 <= i < a.Length0 && 0 <= j < a.Length1 ==> m[i][j] == a[i, j]
  {
    seq(a.Length0, i requires 0 <= i < a.Length0 reads a =>
      seq(a.Length1, j requires 0 <= j < a.Length1 reads a => a[i, j]))
  }

  /** Two matrices that agree cell by cell are equal. */
  lemma SnapshotIs(a: array2<real>, m: seq<seq<real>>)
    requires IsSquare(m, a.Length0) && a.Length1 == a.Length0
    requires forall i, j :: 0 <= i < a.Length0 && 0 <= j < a.Length1 ==> a[i, j] == m[i][j]
    ensures Snapshot(a) == m
  {
    var s := Snapshot(a);
    forall i | 0 <= i < a.Length0
      ensures s[i] == m[i]
    {
      assert forall j :: 0 <= j < a.Length1 ==> s[i][j] == m[i][j];
    }
  }

  // ---------------------------------------------------------------------
  // Preference matrix (`_toMatrix`): specification
  // ---------------------------------------------------------------------

  /** `implicitPref` of `_toMatrix`: one over the participant count, halved
      because each vote retracts it twice. */
  function ImplicitPref(numParticipants: nat): (p: real)
    requires numParticipants > 0
    ensures p == 1.0 / (2 * numParticipants) as real
  {
    (1.0 / numParticipants as real) / 2.0
  }

  /** A cell of the seeded matrix: the all-ones matrix less the identity,
      scaled by `implicitPref` and by the participant count, so that the neutral
      prior is one half off the diagonal and nothing on it. */
  function Seed(numParticipants: nat, i: nat, j: nat): (c: real)
    requires numParticipants > 0
    ensures c == if i == j then 0.0 else 0.5
  {
    (if i == j then 0.0 else 1.0) * ImplicitPref(numParticipants) * numParticipants as real
  }

  /** How many times one vote retracts `implicitPref` from cell (i, j): once
      for `[source][target]`, once for `[target][source]`. */
  function Hits(ix: map<Item, nat>, p: Preference, i: nat, j: nat): nat
    requires p.source in ix && p.target in ix
  {
    var s, t := ix[p.source], ix[p.target];
    (if i == s && j == t then 1 else 0) + (if i == t && j == s then 1 else 0)
  }

  /** The dominant amount one vote records at cell (i, j). */
  function Dominant(ix: map<Item, nat>, p: Preference, i: nat, j: nat): real
    requires p.source in ix && p.target in ix
  {
    var s, t := ix[p.source], ix[p.target];
    if p.value >= 0.5 then (if i == s && j == t then p.value else 0.0)
    else (if i == t && j == s then 1.0 - p.value else 0.0)
  }

  /** Retractions from cell (i, j) over all votes. */
  function Retractions(ix: map<Item, nat>, prefs: seq<Preference>, i: nat, j: nat): nat
    requires Indexed(ix, prefs)
  {
    if |prefs| == 0 then 0
    else Retractions(ix, prefs[..|prefs| - 1], i, j) + Hits(ix, prefs[|prefs| - 1], i, j)
  }

  /** Dominant amounts recorded at cell (i, j) over all votes. */
  function Recorded(ix: map<Item, nat>, prefs: seq<Preference>, i: nat, j: nat): real
    requires Indexed(ix, prefs)
  {
    if |prefs| == 0 then 0.0
    else Recorded(ix, prefs[..|prefs| - 1], i, j) + Dominant(ix, prefs[|prefs| - 1], i, j)
  }

  /** Cell (i, j) once every vote has been applied, before the diagonal is written. */
  function Applied(ix: map<Item, nat>, prefs: seq<Preference>, numParticipants: nat, i: nat, j: nat): real
    requires Indexed(ix, prefs) && numParticipants > 0
  {
    Seed(numParticipants, i, j)
      - Retractions(ix, prefs, i, j) as real * ImplicitPref(numParticipants)
      + Recorded(ix, prefs, i, j)
  }

  /** The n-by-n matrix of `Applied` cells. */
  function AppliedMatrix(ix: map<Item, nat>, prefs: seq<Preference>, numParticipants: nat, n: nat): (m: seq<seq<real>>)
    requires Indexed(ix, prefs) && numParticipants > 0
    ensures IsSquare(m, n)
  {
    seq(n, i requires 0 <= i < n =>
      seq(n, j requires 0 <= j < n => Applied(ix, prefs, numParticipants, i, j)))
  }

  /** The matrix `_toMatrix` returns: the applied cells, with each diagonal
      cell overwritten by the sum of its column as it stood before. */
  function Built(ix: map<Item, nat>, prefs: seq<Preference>, numParticipants: nat, n: nat): (m: seq<seq<real>>)
    requires Indexed(ix, prefs) && numParticipants > 0
    ensures IsSquare(m, n)
  {
    var a := AppliedMatrix(ix, prefs, numParticipants, n);
    var sums := SumColumns(a, n);
    seq(n, i requires 0 <= i < n =>
      seq(n, j requires 0 <= j < n => if i == j then sums[i] else a[i][j]))
  }

  /** A cell of `Built`: the column sum on the diagonal, the applied cell elsewhere. */
  lemma BuiltCell(ix: map<Item, nat>, prefs: seq<Preference>, numParticipants: nat, n: nat, i: nat, j: nat)
    requires Indexed(ix, prefs) && numParticipants > 0 && i < n && j < n
    ensures Built(ix, prefs, numParticipants, n)[i][j]
         == if i == j then SumColumns(AppliedMatrix(ix, prefs, numParticipants, n), n)[i]
            else AppliedMatrix(ix, prefs, numParticipants, n)[i][j]
  {
  }

  // ---------------------------------------------------------------------
  // Preference matrix: properties
  // ---------------------------------------------------------------------

  /** Votes on the unordered pair {i, j}. */
  function VotesOnPair(ix: map<Item, nat>, prefs: seq<Preference>, i: nat, j: nat): nat
    requires Indexed(ix, prefs)
  {
    if |prefs| == 0 then 0
    else
      var p := prefs[|prefs| - 1];
      var s, t := ix[p.source], ix[p.target];
      VotesOnPair(ix, prefs[..|prefs| - 1], i, j)
        + (if (s == i && t == j) || (s == j && t == i) then 1 else 0)
  }

  /** Off the diagonal, each vote on the pair retracts the prior exactly once. */
  lemma {:induction false} RetractionsCountPairVotes(ix: map<Item, nat>, prefs: seq<Preference>, i: nat, j: nat)
    requires Indexed(ix, prefs) && i != j
    ensures Retractions(ix, prefs, i, j) == VotesOnPair(ix, prefs, i, j)
  {
    if |prefs| > 0 {
      RetractionsCountPairVotes(ix, prefs[..|prefs| - 1], i, j);
    }
  }

  /** No vote compares an item with itself. */
  predicate NoSelfVotes(ix: map<Item, nat>, prefs: seq<Preference>)
    requires Indexed(ix, prefs)
  {
    forall k :: 0 <= k < |prefs| ==> ix[prefs[k].source] != ix[prefs[k].target]
  }

  /** Without self-votes a diagonal cell is never touched by the votes. */
  lemma {:induction false} DiagonalUntouched(ix: map<Item, nat>, prefs: seq<Preference>, i: nat)
    requires Indexed(ix, prefs) && NoSelfVotes(ix, prefs)
    ensures Retractions(ix, prefs, i, i) == 0 && Recorded(ix, prefs, i, i) == 0.0
  {
    if |prefs| > 0 {
      DiagonalUntouched(ix, prefs[..|prefs| - 1], i);
    }
  }

  /** Closed form of an off-diagonal cell: the prior one half, less
      `1 / (2·numParticipants)` per vote on the pair, plus the dominant amounts
      recorded at that cell. */
  lemma OffDiagonalClosedForm(ix: map<Item, nat>, prefs: seq<Preference>, numParticipants: nat, n: nat, i: nat, j: nat)
    requires Indexed(ix, prefs) && numParticipants > 0
    requires i < n && j < n && i != j
    ensures Built(ix, prefs, numParticipants, n)[i][j]
         == 0.5 - VotesOnPair(ix, prefs, i, j) as real * (1.0 / (2 * numParticipants) as real) + Recorded(ix, prefs, i, j)
  {
    BuiltCell(ix, prefs, numParticipants, n, i, j);
    assert Built(ix, prefs, numParticipants, n)[i][j] == Applied(ix, prefs, numParticipants, i, j);
    AppliedOffDiagonal(ix, prefs, numParticipants, i, j);
  }

  /** The applied off-diagonal cell in terms of the votes on its pair. */
  lemma AppliedOffDiagonal(ix: map<Item, nat>, prefs: seq<Preference>, numParticipants: nat, i: nat, j: nat)
    requires Indexed(ix, prefs) && numParticipants > 0 && i != j
    ensures Applied(ix, prefs, numParticipants, i, j)
         == 0.5 - VotesOnPair(ix, prefs, i, j) as real * (1.0 / (2 * numParticipants) as real) + Recorded(ix, prefs, i, j)
  {
    RetractionsCountPairVotes(ix, prefs, i, j);
    assert Seed(numParticipants, i, j) == 0.5;
  }

  /** Once `numParticipants` votes have been cast on a pair, its prior is used
      up: the cell holds only the dominant amounts the votes recorded. */
  lemma PriorUsedUp(ix: map<Item, nat>, prefs: seq<Preference>, numParticipants: nat, n: nat, i: nat, j: nat)
    requires Indexed(ix, prefs) && numParticipants > 0
    requires i < n && j < n && i != j
    requires VotesOnPair(ix, prefs, i, j) == numParticipants
    ensures Built(ix, prefs, numParticipants, n)[i][j] == Recorded(ix, prefs, i, j)
  {
    OffDiagonalClosedForm(ix, prefs, numParticipants, n, i, j);
    PriorExhausted(numParticipants);
    Cancel(Built(ix, prefs, numParticipants, n)[i][j], numParticipants as real * (1.0 / (2 * numParticipants) as real),
           Recorded(ix, prefs, i, j));
  }

  /** `c = 1/2 - r + x` and `r = 1/2` give `c = x`. */
  lemma Cancel(c: real, r: real, x: real)
    requires c == 0.5 - r + x && r == 0.5
    ensures c == x
  {
  }

  /** `numParticipants` retractions of `1 / (2·numParticipants)` use up the prior. */
  lemma PriorExhausted(numParticipants: nat)
    requires numParticipants > 0
    ensures numParticipants as real * (1.0 / (2 * numParticipants) as real) == 0.5
  {
    var x := (2 * numParticipants) as real;
    assert x == 2.0 * numParticipants as real;
    assert x * (1.0 / x) == 1.0;
  }

  /** Without self-votes each diagonal cell of the finished matrix is the sum
      of the other cells of its column in that same matrix. (The first clause,
      that it is the column's total before the diagonal was written, is how
      `Built` defines it and is the step towards the second.) */
  lemma DiagonalIsColumnSum(ix: map<Item, nat>, prefs: seq<Preference>, numParticipants: nat, n: nat, i: nat)
    requires Indexed(ix, prefs) && numParticipants > 0 && i < n
    ensures Built(ix, prefs, numParticipants, n)[i][i] == Sum(ColumnOf(AppliedMatrix(ix, prefs, numParticipants, n), i))
    ensures NoSelfVotes(ix, prefs) ==>
      Built(ix, prefs, numParticipants, n)[i][i] == Sum(OffDiagonalColumn(Built(ix, prefs, numParticipants, n), i))
  {
    var a := AppliedMatrix(ix, prefs, numParticipants, n);
    var b := Built(ix, prefs, numParticipants, n);
    if NoSelfVotes(ix, prefs) {
      DiagonalUntouched(ix, prefs, i);
      assert ColumnOf(a, i) == OffDiagonalColumn(b, i);
    }
  }

  /** Column `c` of `m` with its diagonal cell replaced by zero. */
  function OffDiagonalColumn(m: seq<seq<real>>, c: nat): seq<real>
    requires forall r :: 0 <= r < |m| ==> c < |m[r]|
  {
    seq(|m|, r requires 0 <= r < |m| => if r == c then 0.0 else m[r][c])
  }

  /** Applying one more vote (source s, target t) retracts `implicitPref` from
      `[s][t]` and `[t][s]`, adds `value` to `[s][t]` when `value >= 0.5` and
      `1 - value` to `[t][s]` otherwise, and leaves every other cell alone. */
  lemma OneVote(ix: map<Item, nat>, prefs: seq<Preference>, p: Preference, numParticipants: nat, i: nat, j: nat)
    requires Indexed(ix, prefs) && p.source in ix && p.target in ix && numParticipants > 0
    ensures Indexed(ix, prefs + [p])
    ensures var s, t, ip := ix[p.source], ix[p.target], ImplicitPref(numParticipants);
      var before, after := Applied(ix, prefs, numParticipants, i, j), Applied(ix, prefs + [p], numParticipants, i, j);
      && (s != t && i == s && j == t ==> after == before - ip + (if p.value >= 0.5 then p.value else 0.0))
      && (s != t && i == t && j == s ==> after == before - ip + (if p.value >= 0.5 then 0.0 else 1.0 - p.value))
      && (!(i == s && j == t) && !(i == t && j == s) ==> after == before)
  {
    AppliedStep(ix, prefs, p, numParticipants, i, j);
  }

  /** The matrix before any vote: one half off the diagonal and, on it, the
      column sum `(n - 1) / 2`. */
  lemma {:induction false} BuiltWithoutPreferences(ix: map<Item, nat>, numParticipants: nat, n: nat, i: nat, j: nat)
    requires numParticipants > 0 && i < n && j < n
    ensures Built(ix, [], numParticipants, n)[i][j] == if i == j then (n - 1) as real / 2.0 else 0.5
  {
    if i == j {
      var a := AppliedMatrix(ix, [], numParticipants, n);
      SumAllButOne(ColumnOf(a, i), i, 0.0, 0.5);
    }
  }

  // ---------------------------------------------------------------------
  // Power iteration (`_powerMethod`): specification
  // ---------------------------------------------------------------------

  predicate NonZeroRows(m: seq<seq<real>>)
  {
    forall i :: 0 <= i < |m| ==> Sum(m[i]) != 0.0
  }

  predicate RowStochastic(m: seq<seq<real>>)
  {
    forall i :: 0 <= i < |m| ==> Sum(m[i]) == 1.0
  }

  predicate NonNegative(m: seq<seq<real>>)
  {
    forall i, j :: 0 <= i < |m| && 0 <= j < |m[i]| ==> m[i][j] >= 0.0
  }

  predicate NonNegativeVector(v: seq<real>)
  {
    forall i :: 0 <= i < |v| ==> v[i] >= 0.0
  }

  /** Row normalisation in `_powerMethod`: every cell divided by its row's total. */
  function Normalized(m: seq<seq<real>>): seq<seq<real>>
    requires NonZeroRows(m)
  {
    seq(|m|, i requires 0 <= i < |m| =>
      seq(|m[i]|, j requires 0 <= j < |m[i]| => m[i][j] / Sum(m[i])))
  }

  /** Damping in `_powerMethod`: every cell scaled by `d`, then raised by an
      equal share `(1 - d) / n` of the remainder. */
  function Damped(m: seq<seq<real>>, d: real, n: nat): seq<seq<real>>
    requires n > 0
  {
    seq(|m|, i requires 0 <= i < |m| =>
      seq(|m[i]|, j requires 0 <= j < |m[i]| => d * m[i][j] + (1.0 - d) / (n as real)))
  }

  /** The matrix the power iteration multiplies by. */
  function Transition(m: seq<seq<real>>, d: real): seq<seq<real>>
    requires |m| > 0 && NonZeroRows(m)
  {
    Damped(Normalized(m), d, |m|)
  }

  /** Normalisation and damping give a row-stochastic matrix, because
      `d + n·(1 - d)/n = 1`; it is non-negative when the input is and
      `0 <= d <= 1`. */
  lemma TransitionIsStochastic(m: seq<seq<real>>, n: nat, d: real)
    requires n > 0 && IsSquare(m, n) && NonZeroRows(m)
    ensures IsSquare(Transition(m, d), n)
    ensures RowStochastic(Transition(m, d))
    ensures NonNegative(m) && 0.0 <= d <= 1.0 ==> NonNegative(Transition(m, d))
  {
    forall i | 0 <= i < n
      ensures Sum(Transition(m, d)[i]) == 1.0
    {
      TransitionRowSum(m, n, d, i);
    }
    if NonNegative(m) && 0.0 <= d <= 1.0 {
      forall i, j | 0 <= i < n && 0 <= j < n
        ensures Transition(m, d)[i][j] >= 0.0
      {
        TransitionCellNonNegative(m, n, d, i, j);
      }
    }
  }

  /** One row of the transition matrix sums to one. */
  lemma TransitionRowSum(m: seq<seq<real>>, n: nat, d: real, i: nat)
    requires n > 0 && IsSquare(m, n) && NonZeroRows(m) && i < n
    ensures |Transition(m, d)[i]| == n && Sum(Transition(m, d)[i]) == 1.0
  {
    var nm := Normalized(m)[i];
    NormalizedRowSum(m[i], nm);
    DampedRowSum(nm, Transition(m, d)[i], d, n);
  }

  /** A row divided by its own non-zero sum sums to one. */
  lemma NormalizedRowSum(row: seq<real>, nm: seq<real>)
    requires Sum(row) != 0.0 && |nm| == |row|
    requires forall j :: 0 <= j < |row| ==> nm[j] == row[j] / Sum(row)
    ensures Sum(nm) == 1.0
  {
    SumDivided(row, nm, Sum(row));
    SelfQuotient(Sum(row));
  }

  /** `s / s = 1`, stated on a bare real so that no sum is in sight. */
  lemma SelfQuotient(s: real)
    requires s != 0.0
    ensures s / s == 1.0
  {
  }

  /** Dividing every element by `c` divides the sum by `c`. */
  lemma {:induction false} SumDivided(x: seq<real>, y: seq<real>, c: real)
    requires c != 0.0 && |y| == |x|
    requires forall j :: 0 <= j < |x| ==> y[j] == x[j] / c
    ensures Sum(y) == Sum(x) / c
  {
    if |x| > 0 {
      var k := |x| - 1;
      SumDivided(x[..k], y[..k], c);
      assert Sum(y) == Sum(x[..k]) / c + x[k] / c;
    }
  }

  /** Damping a row of `n` cells that sums to one still gives a row that sums
      to one: `d·1 + n·(1 - d)/n = 1`. */
  lemma DampedRowSum(row: seq<real>, t: seq<real>, d: real, n: nat)
    requires n > 0 && |row| == n && |t| == n && Sum(row) == 1.0
    requires forall j :: 0 <= j < n ==> t[j] == d * row[j] + (1.0 - d) / (n as real)
    ensures Sum(t) == 1.0
  {
    SumAffine(row, t, d, (1.0 - d) / (n as real));
    assert n as real * ((1.0 - d) / (n as real)) == 1.0 - d;
  }

  /** A cell of the transition matrix is non-negative when the input's cells
      are and `0 <= d <= 1`. */
  lemma TransitionCellNonNegative(m: seq<seq<real>>, n: nat, d: real, i: nat, j: nat)
    requires n > 0 && IsSquare(m, n) && NonZeroRows(m) && i < n && j < n
    requires NonNegative(m) && 0.0 <= d <= 1.0
    ensures Transition(m, d)[i][j] >= 0.0
  {
    SumNonNegative(m[i]);
    var s := Sum(m[i]);
    var x := m[i][j] / s;
    assert Normalized(m)[i][j] == x;
    assert x >= 0.0;
    assert d * x >= 0.0;
    assert (1.0 - d) / (n as real) >= 0.0;
    assert Transition(m, d)[i][j] == d * x + (1.0 - d) / (n as real);
  }

  /** Partial product: `Σ_{i<k} v[i]·m[i][j]`. */
  function Mix(v: seq<real>, m: seq<seq<real>>, j: nat, k: nat): real
    requires k <= |v| && k <= |m|
    requires forall i :: 0 <= i < k ==> j < |m[i]|
  {
    if k == 0 then 0.0 else Mix(v, m, j, k - 1) + v[k - 1] * m[k - 1][j]
  }

  /** The row vector built from the first k rows of `m`, weighted by `v`. */
  function Partial(v: seq<real>, m: seq<seq<real>>, k: nat): seq<real>
    requires IsSquare(m, |v|) && k <= |v|
  {
    seq(|v|, j requires 0 <= j < |v| => Mix(v, m, j, k))
  }

  /** One step of the power loop: the row vector `v` times the matrix `m`. */
  function VecMat(v: seq<real>, m: seq<seq<real>>): (w: seq<real>)
    requires IsSquare(m, |v|)
    ensures |w| == |v|
  {
    Partial(v, m, |v|)
  }

  /** With row-stochastic `m`, the partial product over k rows sums to the
      first k weights. */
  lemma {:induction false} SumPartial(v: seq<real>, m: seq<seq<real>>, k: nat)
    requires IsSquare(m, |v|) && RowStochastic(m) && k <= |v|
    ensures Sum(Partial(v, m, k)) == Sum(v[..k])
  {
    var p := Partial(v, m, k);
    if k == 0 {
      SumAffine(p, p, 0.0, 0.0);
      assert v[..0] == [];
    } else {
      SumPartial(v, m, k - 1);
      PartialStep(v, m, k);
      assert v[..k] == v[..k - 1] + [v[k - 1]];
    }
  }

  /** Taking one more row into the product adds that row's weight to the total. */
  lemma PartialStep(v: seq<real>, m: seq<seq<real>>, k: nat)
    requires IsSquare(m, |v|) && RowStochastic(m) && 0 < k <= |v|
    ensures Sum(Partial(v, m, k)) == Sum(Partial(v, m, k - 1)) + v[k - 1]
  {
    var n := |v|;
    var row := seq(n, j requires 0 <= j < n => v[k - 1] * m[k - 1][j]);
    SumAffine(m[k - 1], row, v[k - 1], 0.0);
    ScaleOne(Sum(row), v[k - 1], Sum(m[k - 1]), n as real);
    SumAdd(Partial(v, m, k - 1), row, Partial(v, m, k));
  }

  /** `s = a·1 + n·0` gives `s = a`. */
  lemma ScaleOne(s: real, a: real, one: real, n: real)
    requires one == 1.0 && s == a * one + n * 0.0
    ensures s == a
  {
  }

  /** A probability vector times a row-stochastic matrix keeps its total. */
  lemma VecMatKeepsSum(v: seq<real>, m: seq<seq<real>>)
    requires IsSquare(m, |v|) && RowStochastic(m)
    ensures Sum(VecMat(v, m)) == Sum(v)
  {
    SumPartial(v, m, |v|);
    assert v[..|v|] == v;
  }

  /** Non-negative weights times a non-negative matrix stay non-negative. */
  lemma {:induction false} MixNonNegative(v: seq<real>, m: seq<seq<real>>, j: nat, k: nat)
    requires IsSquare(m, |v|) && k <= |v| && j < |v|
    requires NonNegativeVector(v) && NonNegative(m)
    ensures Mix(v, m, j, k) >= 0.0
  {
    if k > 0 {
      MixNonNegative(v, m, j, k - 1);
      assert v[k - 1] * m[k - 1][j] >= 0.0;
    }
  }

  /** `k` power steps from `v`. */
  function Power(m: seq<seq<real>>, v: seq<real>, k: nat): (w: seq<real>)
    requires IsSquare(m, |v|)
    ensures |w| == |v|
  {
    if k == 0 then v else VecMat(Power(m, v, k - 1), m)
  }

  /** Every iterate of a distribution under a row-stochastic matrix is again
      a distribution (non-negative when the matrix is). */
  lemma {:induction false} PowerIsDistribution(m: seq<seq<real>>, v: seq<real>, k: nat)
    requires IsSquare(m, |v|) && RowStochastic(m) && Sum(v) == 1.0
    ensures Sum(Power(m, v, k)) == 1.0
    ensures NonNegative(m) && NonNegativeVector(v) ==> NonNegativeVector(Power(m, v, k))
  {
    if k > 0 {
      var w := Power(m, v, k - 1);
      PowerIsDistribution(m, v, k - 1);
      VecMatKeepsSum(w, m);
      if NonNegative(m) && NonNegativeVector(v) {
        forall j | 0 <= j < |v|
          ensures VecMat(w, m)[j] >= 0.0
        {
          MixNonNegative(w, m, j, |w|);
        }
      }
    }
  }

  /** The uniform start vector of the power loop: `1/n` in every entry. */
  function Uniform(n: nat): (u: seq<real>)
    requires n > 0
    ensures |u| == n && Sum(u) == 1.0 && NonNegativeVector(u)
  {
    var u := seq(n, _ => 1.0 / (n as real));
    SumAffine(u, u, 0.0, 1.0 / (n as real));
    u
  }

  /** Squared Euclidean distance. */
  function SquaredDistance(a: seq<real>, b: seq<real>): real
    requires |a| == |b|
  {
    Sum(seq(|a|, i requires 0 <= i < |a| => (a[i] - b[i]) * (a[i] - b[i])))
  }

  /** The convergence test of the power loop: the Euclidean norm (`#norm`) of
      the difference of two successive iterates is below `epsilon`. The norm is
      the square root of the squared distance, and `sqrt(x) < epsilon` holds exactly when
      `epsilon > 0` and `x < epsilon²`. */
  predicate Converged(next: seq<real>, prev: seq<real>, epsilon: real)
    requires |next| == |prev|
  {
    0.0 < epsilon && SquaredDistance(next, prev) < epsilon * epsilon
  }

  /** The stopping rule of the power loop: no product is taken when `nIter <= 0`,
      otherwise between 1 and `nIter`; the last product taken before `nIter`
      is the first whose iterate converged, and no earlier one did. */
  predicate StopsAt(t: seq<seq<real>>, n: nat, epsilon: real, nIter: int, steps: nat)
  {
    && n > 0 && IsSquare(t, n)
    && (nIter <= 0 ==> steps == 0)
    && (nIter > 0 ==> 1 <= steps <= nIter)
    && (0 < steps < nIter ==> Converged(Power(t, Uniform(n), steps), Power(t, Uniform(n), steps - 1), epsilon))
    && (forall k :: 1 <= k < steps ==> !Converged(Power(t, Uniform(n), k), Power(t, Uniform(n), k - 1), epsilon))
  }

  /** `m` equals its transpose. */
  predicate Symmetric(m: seq<seq<real>>)
    requires IsSquare(m, |m|)
  {
    forall i, j :: 0 <= i < |m| && 0 <= j < |m| ==> m[i][j] == m[j][i]
  }

  /** With uniform weights `c` and a symmetric matrix, entry j of the partial
      product is `c` times the first k cells of row j. */
  lemma {:induction false} MixUniformSymmetric(v: seq<real>, m: seq<seq<real>>, c: real, j: nat, k: nat)
    requires IsSquare(m, |v|) && Symmetric(m) && k <= |v| && j < |v|
    requires forall i :: 0 <= i < |v| ==> v[i] == c
    ensures Mix(v, m, j, k) == c * Sum(m[j][..k])
  {
    if k > 0 {
      MixUniformSymmetric(v, m, c, j, k - 1);
      assert m[j][..k][..k - 1] == m[j][..k - 1];
    }
  }

  /** Without any vote every item gets weight `1/n` after any number of steps
      and for every damping factor: the uniform vector is a fixed point. */
  lemma UniformWithoutPreferences(ix: map<Item, nat>, numParticipants: nat, n: nat, d: real, k: nat)
    requires numParticipants > 0 && n >= 2
    ensures NonZeroRows(Built(ix, [], numParticipants, n))
    ensures Power(Transition(Built(ix, [], numParticipants, n), d), Uniform(n), k) == Uniform(n)
  {
    var b := Built(ix, [], numParticipants, n);
    forall i | 0 <= i < n
      ensures Sum(b[i]) == (n - 1) as real
    {
      RowSumWithoutPreferences(ix, numParticipants, n, i);
    }
    forall i, j | 0 <= i < n && 0 <= j < n
      ensures b[i][j] == b[j][i]
    {
      BuiltWithoutPreferences(ix, numParticipants, n, i, j);
      BuiltWithoutPreferences(ix, numParticipants, n, j, i);
    }
    TransitionIsStochastic(b, n, d);
    TransitionSymmetric(b, n, d, (n - 1) as real);
    UniformIsFixedPoint(Transition(b, d), n, k);
  }

  /** A symmetric matrix whose rows all have the same sum stays symmetric
      under normalisation and damping. */
  lemma TransitionSymmetric(m: seq<seq<real>>, n: nat, d: real, c: real)
    requires n > 0 && IsSquare(m, n) && Symmetric(m)
    requires c != 0.0 && forall i :: 0 <= i < n ==> Sum(m[i]) == c
    ensures NonZeroRows(m) && IsSquare(Transition(m, d), n)
    ensures Symmetric(Transition(m, d))
  {
    var t := Transition(m, d);
    forall i, j | 0 <= i < n && 0 <= j < n
      ensures t[i][j] == t[j][i]
    {
      assert t[i][j] == d * (m[i][j] / c) + (1.0 - d) / (n as real);
      assert t[j][i] == d * (m[j][i] / c) + (1.0 - d) / (n as real);
    }
  }

  /** Before any vote every row sums to `n - 1`. */
  lemma RowSumWithoutPreferences(ix: map<Item, nat>, numParticipants: nat, n: nat, i: nat)
    requires numParticipants > 0 && i < n
    ensures Sum(Built(ix, [], numParticipants, n)[i]) == (n - 1) as real
  {
    var b := Built(ix, [], numParticipants, n);
    forall j | 0 <= j < n
      ensures b[i][j] == if j == i then (n - 1) as real / 2.0 else 0.5
    {
      BuiltWithoutPreferences(ix, numParticipants, n, i, j);
    }
    SumAllButOne(b[i], i, (n - 1) as real / 2.0, 0.5);
  }

  /** The uniform vector is a fixed point of a symmetric row-stochastic matrix. */
  lemma {:induction false} UniformIsFixedPoint(t: seq<seq<real>>, n: nat, k: nat)
    requires n > 0 && IsSquare(t, n) && Symmetric(t) && RowStochastic(t)
    ensures Power(t, Uniform(n), k) == Uniform(n)
  {
    if k > 0 {
      UniformIsFixedPoint(t, n, k - 1);
      var u := Uniform(n);
      forall j | 0 <= j < n
        ensures VecMat(u, t)[j] == u[j]
      {
        MixUniformSymmetric(u, t, 1.0 / (n as real), j, n);
        assert t[j][..n] == t[j];
      }
    }
  }

  /** The ranking returned by `run`: each item labelled with its weight. */
  predicate Labelled(items: seq<Item>, weights: seq<real>, rankings: map<Item, real>)
  {
    && |weights| == |items|
    && (forall x :: x in rankings ==> x in items)
    && (forall i :: 0 <= i < |items| ==> items[i] in rankings && rankings[items[i]] == weights[i])
  }

  // ---------------------------------------------------------------------
  // The ranker
  // ---------------------------------------------------------------------

  class PowerRanker {
    const items: seq<Item>
    const matrix: array2<real>
    /** Constructor arguments that only the matrix remembers. */
    ghost const numParticipants: nat
    ghost const preferences: seq<Preference>

    ghost predicate Valid()
      reads this, matrix
    {
      && |items| >= 2
      && Distinct(items)
      && numParticipants > 0
      && KnownItems(items, preferences)
      && matrix.Length0 == |items| && matrix.Length1 == |items|
      && Indexed(ToItemMap(items), preferences)
      && Snapshot(matrix) == Built(ToItemMap(items), preferences, numParticipants, |items|)
    }

    /** The `PowerRanker` constructor, which throws unless there are at least
        two items. */
    static method Create(items: seq<Item>, numParticipants: nat, preferences: seq<Preference>)
      returns (r: Result<PowerRanker, Error>)
      requires Distinct(items)
      requires |items| >= 2 ==> numParticipants > 0 && KnownItems(items, preferences)
      ensures r.Failure? <==> |items| < 2
      ensures r.Failure? ==> r.error == TooFewItems
      ensures r.Success? ==> && fresh(r.value) && r.value.Valid()
                             && r.value.items == items
                             && r.value.numParticipants == numParticipants
                             && r.value.preferences == preferences
    {
      if |items| < 2 {
        return Failure(TooFewItems);
      }
      var ranker := new PowerRanker(items, numParticipants, preferences);
      return Success(ranker);
    }

    /** The body of the constructor once the size check has passed. */
    constructor (items: seq<Item>, numParticipants: nat, preferences: seq<Preference>)
      requires |items| >= 2
      requires Distinct(items) && numParticipants > 0 && KnownItems(items, preferences)
      ensures Valid() && fresh(matrix)
      ensures this.items == items && this.numParticipants == numParticipants
      ensures this.preferences == preferences
    {
      this.items := items;
      this.numParticipants := numParticipants;
      this.preferences := preferences;
      var built := ToMatrix(items, preferences, numParticipants);
      KnownItemsAreIndexed(items, preferences);
      SnapshotIs(built, Built(ToItemMap(items), preferences, numParticipants, |items|));
      matrix := built;
    }

    /** `run`: the power method's weights, labelled.
        `steps` is the number of products the power method took. */
    method Run(d: real, epsilon: real, nIter: int) returns (rankings: map<Item, real>, steps: nat)
      requires Valid()
      requires NonZeroRows(Snapshot(matrix))
      ensures StopsAt(Transition(Snapshot(matrix), d), |items|, epsilon, nIter, steps)
      ensures Labelled(items, Power(Transition(Snapshot(matrix), d), Uniform(|items|), steps), rankings)
      ensures Sum(Power(Transition(Snapshot(matrix), d), Uniform(|items|), steps)) == 1.0
      ensures NonNegative(Snapshot(matrix)) && 0.0 <= d <= 1.0 ==>
        NonNegativeVector(Power(Transition(Snapshot(matrix), d), Uniform(|items|), steps))
    {
      var weights;
      weights, steps := PowerMethod(matrix, d, epsilon, nIter);
      var labelled := ApplyLabels(items, weights.value);
      rankings := labelled.value;
    }

    /** `_applyLabels`: maps each item to the weight at its index. */
    static method ApplyLabels(items: seq<Item>, eigenvector: seq<real>) returns (r: Result<map<Item, real>, Error>)
      requires Distinct(items)
      ensures r.Failure? <==> |items| != |eigenvector|
      ensures r.Failure? ==> r.error == MismatchedArguments
      ensures r.Success? ==> Labelled(items, eigenvector, r.value)
    {
      var itemMap := ToItemMap(items);
      ItemMapIndexes(items);
      if |itemMap| != |eigenvector| {
        return Failure(MismatchedArguments);
      }
      // The same Map, its index values overwritten one item at a time.
      var labels: map<Item, real> := map x | x in itemMap :: itemMap[x] as real;
      for k := 0 to |items|
        invariant labels.Keys == itemMap.Keys
        invariant forall i :: 0 <= i < k ==> labels[items[i]] == eigenvector[i]
      {
        labels := labels[items[k] := eigenvector[itemMap[items[k]]]];
      }
      forall x | x in items
        ensures x in labels
      {
        var i :| 0 <= i < |items| && items[i] == x;
      }
      return Success(labels);
    }

    /** `_toMatrix`: seeds the neutral prior, applies every vote in place,
        then writes each diagonal cell as its column sum. */
    static method ToMatrix(items: seq<Item>, preferences: seq<Preference>, numParticipants: nat)
      returns (matrix: array2<real>)
      requires Distinct(items) && KnownItems(items, preferences) && numParticipants > 0
      ensures fresh(matrix)
      ensures matrix.Length0 == |items| && matrix.Length1 == |items|
      ensures Indexed(ToItemMap(items), preferences)
      ensures forall i, j :: 0 <= i < |items| && 0 <= j < |items| ==>
        matrix[i, j] == Built(ToItemMap(items), preferences, numParticipants, |items|)[i][j]
    {
      var n := |items|;
      matrix := SeedAndApply(items, preferences, numParticipants);
      var sums := SumColumns(Snapshot(matrix), n);
      WriteDiagonal(matrix, sums);
      SnapshotIs(matrix, Built(ToItemMap(items), preferences, numParticipants, n));
    }

    /** The first two steps of `_toMatrix`: the seeded prior, with every
        vote applied to it in place. */
    static method SeedAndApply(items: seq<Item>, preferences: seq<Preference>, numParticipants: nat)
      returns (matrix: array2<real>)
      requires Distinct(items) && KnownItems(items, preferences) && numParticipants > 0
      ensures fresh(matrix)
      ensures matrix.Length0 == |items| && matrix.Length1 == |items|
      ensures Indexed(ToItemMap(items), preferences)
      ensures Snapshot(matrix) == AppliedMatrix(ToItemMap(items), preferences, numParticipants, |items|)
    {
      var n := |items|;
      var itemMap := ToItemMap(items);
      ItemMapIndexes(items);
      KnownItemsAreIndexed(items, preferences);
      matrix := new real[n, n]((i: nat, j: nat) => Seed(numParticipants, i, j));
      ApplyPreferences(matrix, itemMap, preferences, numParticipants);
      SnapshotIs(matrix, AppliedMatrix(itemMap, preferences, numParticipants, n));
    }

    /** The `forEach` over the preferences in `_toMatrix`: each vote retracts
        `implicitPref` from both directions of its pair and records its
        dominant direction, in place. */
    static method ApplyPreferences(matrix: array2<real>, itemMap: map<Item, nat>,
                                   preferences: seq<Preference>, numParticipants: nat)
      requires numParticipants > 0 && Indexed(itemMap, preferences)
      requires forall x :: x in itemMap ==> itemMap[x] < matrix.Length0 && itemMap[x] < matrix.Length1
      requires forall i, j :: 0 <= i < matrix.Length0 && 0 <= j < matrix.Length1 ==>
        matrix[i, j] == Seed(numParticipants, i, j)
      modifies matrix
      ensures forall i, j :: 0 <= i < matrix.Length0 && 0 <= j < matrix.Length1 ==>
        matrix[i, j] == Applied(itemMap, preferences, numParticipants, i, j)
    {
      var implicitPref := ImplicitPref(numParticipants);
      for k := 0 to |preferences|
        invariant forall i, j :: 0 <= i < matrix.Length0 && 0 <= j < matrix.Length1 ==>
          matrix[i, j] == Applied(itemMap, preferences[..k], numParticipants, i, j)
      {
        var p := preferences[k];
        var targetIx := itemMap[p.target];
        var sourceIx := itemMap[p.source];
        matrix[sourceIx, targetIx] := matrix[sourceIx, targetIx] - implicitPref;
        matrix[targetIx, sourceIx] := matrix[targetIx, sourceIx] - implicitPref;
        if p.value >= 0.5 {
          matrix[sourceIx, targetIx] := matrix[sourceIx, targetIx] + p.value;
        } else {
          matrix[targetIx, sourceIx] := matrix[targetIx, sourceIx] + (1.0 - p.value);
        }
        assert preferences[..k + 1] == preferences[..k] + [p];
        forall i, j | 0 <= i < matrix.Length0 && 0 <= j < matrix.Length1
          ensures matrix[i, j] == Applied(itemMap, preferences[..k + 1], numParticipants, i, j)
        {
          AppliedStep(itemMap, preferences[..k], p, numParticipants, i, j);
        }
      }

      assert preferences[..|preferences|] == preferences;
    }

    /** The last step of `_toMatrix`: each diagonal cell is overwritten in
        place with its column's total, and no other cell changes. */
    static method WriteDiagonal(matrix: array2<real>, sums: seq<real>)
      requires matrix.Length0 == matrix.Length1 == |sums|
      modifies matrix
      ensures forall r, c :: 0 <= r < matrix.Length0 && 0 <= c < matrix.Length1 ==>
        matrix[r, c] == if r == c then sums[r] else old(matrix[r, c])
    {
      for i := 0 to |sums|
        invariant forall r, c :: 0 <= r < matrix.Length0 && 0 <= c < matrix.Length1 ==>
          matrix[r, c] == if r == c && r < i then sums[r] else old(matrix[r, c])
      {
        matrix[i, i] := sums[i];
      }
    }

    /** `_powerMethod`: works on a clone of `matrix` (the method may not
        modify it), normalises and damps it, starts from the uniform vector
        and multiplies at most `nIter` times, stopping early once two
        successive vectors are within `epsilon`. `steps` is the number of
        products taken. */
    static method PowerMethod(matrix: array2<real>, d: real, epsilon: real, nIter: int)
      returns (result: Result<seq<real>, Error>, steps: nat)
      requires matrix.Length0 == matrix.Length1 ==> matrix.Length0 > 0 && NonZeroRows(Snapshot(matrix))
      ensures result.Failure? <==> matrix.Length0 != matrix.Length1
      ensures result.Failure? ==> result.error == NotSquare
      ensures result.Success? ==>
        var n := matrix.Length0;
        var t := Transition(Snapshot(matrix), d);
        && IsSquare(t, n)
        && StopsAt(t, n, epsilon, nIter, steps)
        && result.value == Power(t, Uniform(n), steps)
        && Sum(result.value) == 1.0
        && (NonNegative(Snapshot(matrix)) && 0.0 <= d <= 1.0 ==> NonNegativeVector(result.value))
    {
      if matrix.Length0 != matrix.Length1 {
        return Failure(NotSquare), 0;
      }
      var n := matrix.Length0;
      var copy := Snapshot(matrix);
      var t := Transition(copy, d);
      TransitionIsStochastic(copy, n, d);

      var u := Uniform(n);
      var eigenvector := u;
      var prev := eigenvector;
      steps := 0;
      while steps < nIter
        invariant nIter <= 0 ==> steps == 0
        invariant nIter > 0 ==> steps <= nIter
        invariant eigenvector == prev == Power(t, u, steps)
        invariant forall k :: 1 <= k <= steps ==> !Converged(Power(t, u, k), Power(t, u, k - 1), epsilon)
      {
        eigenvector := VecMat(prev, t);
        steps := steps + 1;
        if Converged(eigenvector, prev, epsilon) {
          break;
        }
        prev := eigenvector;
      }
      PowerIsDistribution(t, u, steps);
      return Success(eigenvector), steps;
    }
  }

  /** The unfolding used by `ToMatrix`'s loop: one more vote changes a cell
      by its hits and its dominant amount. */
  lemma AppliedStep(ix: map<Item, nat>, prefs: seq<Preference>, p: Preference, numParticipants: nat, i: nat, j: nat)
    requires Indexed(ix, prefs) && p.source in ix && p.target in ix && numParticipants > 0
    ensures Indexed(ix, prefs + [p])
    ensures var s, t, ip := ix[p.source], ix[p.target], ImplicitPref(numParticipants);
      Applied(ix, prefs + [p], numParticipants, i, j)
        == Applied(ix, prefs, numParticipants, i, j)
           - (if i == s && j == t then ip else 0.0)
           - (if i == t && j == s then ip else 0.0)
           + Dominant(ix, p, i, j)
  {
    var q := prefs + [p];
    assert q[..|q| - 1] == prefs;
    assert forall k :: 0 <= k < |prefs| ==> prefs[k] == q[k];
    var r := Retractions(ix, prefs, i, j) as real;
    var h := Hits(ix, p, i, j);
    var ip := ImplicitPref(numParticipants);
    assert Retractions(ix, q, i, j) as real * ip == r * ip + h as real * ip;
  }
}
