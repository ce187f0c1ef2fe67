/**
 * Token-to-query-head folding (scripts/ci/attention_head_fold.py, lines 4-29, and `source_row` of
 * scripts/ci/attention_fold_dma.py). A query is the flat list of its head vectors, token by token.
 */
module HeadFold {
  import opened Arithmetic

  // ----- Reshapes of flat lists

  /** Split into rows of `n`. */
  function Group<T>(s: seq<T>, n: nat): seq<seq<T>>
    requires n > 0
    decreases |s|
  {
    if |s| < n then [] else [s[..n]] + Group(s[n..], n)
  }

  function Flat<T>(rows: seq<seq<T>>): seq<T> {
    if rows == [] then [] else rows[0] + Flat(rows[1..])
  }

  predicate Uniform<T>(rows: seq<seq<T>>, n: nat) {
    forall i :: 0 <= i < |rows| ==> |rows[i]| == n
  }

  lemma {:induction false} FlatLength<T>(rows: seq<seq<T>>, n: nat)
    requires Uniform(rows, n)
    ensures |Flat(rows)| == At(|rows|, n)
  {
    if rows != [] {
      FlatLength(rows[1..], n);
    }
  }

  lemma {:induction false} FlatEntry<T>(rows: seq<seq<T>>, n: nat, i: nat, j: nat)
    requires Uniform(rows, n) && i < |rows| && j < n
    ensures At(i, n) + j < |Flat(rows)| && Flat(rows)[At(i, n) + j] == rows[i][j]
  {
    if i > 0 {
      FlatEntry(rows[1..], n, i - 1, j);
    }
  }

  predicate Cuboid<T>(m: seq<seq<seq<T>>>, a: nat, b: nat) {
    Uniform(m, a) && forall i :: 0 <= i < |m| ==> Uniform(m[i], b)
  }

  lemma {:induction false} FlatKeepsUniform<T>(m: seq<seq<seq<T>>>, n: nat)
    requires forall i :: 0 <= i < |m| ==> Uniform(m[i], n)
    ensures Uniform(Flat(m), n)
  {
    if m != [] {
      FlatKeepsUniform(m[1..], n);
    }
  }

  lemma UniformInside<T>(m: seq<seq<seq<T>>>, a: nat, b: nat)
    requires Uniform(m, a) && Uniform(Flat(m), b)
    ensures Cuboid(m, a, b)
  {
    forall i, j | 0 <= i < |m| && 0 <= j < a ensures |m[i][j]| == b {
      FlatEntry(m, a, i, j);
    }
  }

  /** Position of an entry of a three-dimensional list in its flat form. */
  lemma FlatTwiceEntry<T>(m: seq<seq<seq<T>>>, a: nat, b: nat, i: nat, j: nat, h: nat)
    requires Cuboid(m, a, b) && i < |m| && j < a && h < b
    ensures |Flat(Flat(m))| == At(At(|m|, a), b)
    ensures At(At(i, a) + j, b) + h < |Flat(Flat(m))| && Flat(Flat(m))[At(At(i, a) + j, b) + h] == m[i][j][h]
  {
    FlatKeepsUniform(m, b);
    FlatLength(m, a);
    FlatLength(Flat(m), b);
    FlatEntry(m, a, i, j);
    FlatEntry(Flat(m), b, At(i, a) + j, h);
  }

  lemma {:induction false} GroupOfFlat<T>(rows: seq<seq<T>>, n: nat)
    requires n > 0 && Uniform(rows, n)
    ensures Group(Flat(rows), n) == rows
  {
    if rows != [] {
      GroupOfFlat(rows[1..], n);
      assert Flat(rows)[..n] == rows[0] && Flat(rows)[n..] == Flat(rows[1..]);
    }
  }

  lemma {:induction false} FlatOfGroup<T>(s: seq<T>, n: nat, k: nat)
    requires n > 0 && |s| == At(k, n)
    ensures |Group(s, n)| == k && Uniform(Group(s, n), n) && Flat(Group(s, n)) == s
  {
    if k > 0 {
      FlatOfGroup(s[n..], n, k - 1);
    }
  }

  lemma {:induction false} FlatAppend<T>(rows: seq<seq<T>>, last: seq<T>)
    ensures Flat(rows + [last]) == Flat(rows) + last
  {
    FlatConcat(rows, [last]);
    assert Flat([last]) == last;
  }

  lemma SeqAssoc<T>(x: seq<T>, y: seq<T>, z: seq<T>)
    ensures (x + y) + z == x + (y + z)
  {
  }

  lemma {:induction false} FlatConcat<T>(a: seq<seq<T>>, b: seq<seq<T>>)
    ensures Flat(a + b) == Flat(a) + Flat(b)
  {
    if a == [] {
      assert a + b == b;
    } else {
      FlatConcat(a[1..], b);
      assert (a + b)[0] == a[0] && (a + b)[1..] == a[1..] + b;
      SeqAssoc(a[0], Flat(a[1..]), Flat(b));
    }
  }

  lemma FlatExtend<T>(rows: seq<seq<T>>, n: nat)
    requires n < |rows|
    ensures Flat(rows[..n + 1]) == Flat(rows[..n]) + rows[n]
  {
    FlatAppend(rows[..n], rows[n]);
    assert rows[..n + 1] == rows[..n] + [rows[n]];
  }

  /** Exchange of the first two axes. */
  function Transposed<T>(m: seq<seq<T>>, columns: nat): (t: seq<seq<T>>)
    requires Uniform(m, columns)
    ensures |t| == columns && Uniform(t, |m|)
    ensures forall i, j :: 0 <= i < |m| && 0 <= j < columns ==> t[j][i] == m[i][j]
  {
    seq(columns, (j: nat) requires j < columns => seq(|m|, (i: nat) requires i < |m| && |m[i]| == columns => m[i][j]))
  }

  // ----- fold_query and unfold_output

  /** `query.reshape(rows, 2, 6, ...)`. */
  function TokenMajor<V>(query: seq<V>, rows: nat): (m: seq<seq<seq<V>>>)
    requires |query| == rows * 12
    ensures |m| == rows && Uniform(m, 2)
  {
    GroupsOfSix(query, rows * 2);
    FlatOfGroupSized(Group(query, 6), 2, rows);
    Group(Group(query, 6), 2)
  }

  /** `output.reshape(2, rows, 6, ...)`. */
  function HeadMajor<V>(output: seq<V>, rows: nat): (m: seq<seq<seq<V>>>)
    requires |output| == rows * 12 && rows > 0
    ensures |m| == 2 && Uniform(m, rows)
  {
    GroupsOfSix(output, rows * 2);
    FlatOfGroupSized(Group(output, 6), rows, 2);
    Group(Group(output, 6), rows)
  }

  lemma GroupsOfSix<V>(s: seq<V>, k: nat)
    requires |s| == k * 6
    ensures |Group(s, 6)| == k && Uniform(Group(s, 6), 6) && Flat(Group(s, 6)) == s
  {
    AtIsProduct(k, 6);
    FlatOfGroup(s, 6, k);
  }

  lemma FlatOfGroupSized<T>(s: seq<T>, n: nat, k: nat)
    requires n > 0 && |s| == k * n
    ensures |Group(s, n)| == k && Uniform(Group(s, n), n) && Flat(Group(s, n)) == s
  {
    AtIsProduct(k, n);
    FlatOfGroup(s, n, k);
  }

  /** `fold_query`: KV head first, then token, then head within its KV group. */
  function FoldQuery<V>(query: seq<V>, rows: nat): seq<V>
    requires |query| == rows * 12
  {
    Flat(Flat(Transposed(TokenMajor(query, rows), 2)))
  }

  /** `unfold_output`. */
  function UnfoldOutput<V>(output: seq<V>, rows: nat): seq<V>
    requires |output| == rows * 12 && rows > 0
  {
    Flat(Flat(Transposed(HeadMajor(output, rows), rows)))
  }

  /** Entry (token, kv, h) in token-major order. */
  lemma TokenMajorIndex(token: nat, kv: nat, h: nat)
    ensures At(At(token, 2) + kv, 6) + h == token * 12 + kv * 6 + h
  {
    AtIsProduct(token, 2);
    AtIsProduct(token * 2 + kv, 6);
  }

  /** Entry (kv, token, h) in head-major order. */
  lemma HeadMajorIndex(rows: nat, token: nat, kv: nat, h: nat)
    requires kv < 2
    ensures At(At(kv, rows) + token, 6) + h == kv * (rows * 6) + token * 6 + h
  {
    AtIsProduct(At(kv, rows) + token, 6);
    if kv == 1 {
      assert At(1, rows) == At(0, rows) + rows;
    }
  }

  /** Entry of a flat list regrouped as outer x inner x 6. */
  lemma RegroupedAt<V>(s: seq<V>, outer: nat, inner: nat, i: nat, j: nat, h: nat)
    requires |s| == At(At(outer, inner), 6) && inner > 0 && i < outer && j < inner && h < 6
    ensures |Group(Group(s, 6), inner)| == outer && Cuboid(Group(Group(s, 6), inner), inner, 6)
    ensures At(At(i, inner) + j, 6) + h < |s|
    ensures Group(Group(s, 6), inner)[i][j][h] == s[At(At(i, inner) + j, 6) + h]
  {
    FlatOfGroup(s, 6, At(outer, inner));
    FlatOfGroup(Group(s, 6), inner, outer);
    UniformInside(Group(Group(s, 6), inner), inner, 6);
    FlatTwiceEntry(Group(Group(s, 6), inner), inner, 6, i, j, h);
  }

  lemma TokenMajorAt<V>(query: seq<V>, rows: nat, token: nat, kv: nat, h: nat)
    requires |query| == rows * 12 && token < rows && kv < 2 && h < 6
    ensures Cuboid(TokenMajor(query, rows), 2, 6)
    ensures token * 12 + kv * 6 + h < |query| && TokenMajor(query, rows)[token][kv][h] == query[token * 12 + kv * 6 + h]
  {
    FoldedLength(rows);
    RegroupedAt(query, rows, 2, token, kv, h);
    TokenMajorIndex(token, kv, h);
  }

  lemma HeadMajorAt<V>(output: seq<V>, rows: nat, token: nat, kv: nat, h: nat)
    requires |output| == rows * 12 && token < rows && kv < 2 && h < 6
    ensures Cuboid(HeadMajor(output, rows), rows, 6)
    ensures kv * (rows * 6) + token * 6 + h < |output|
    ensures HeadMajor(output, rows)[kv][token][h] == output[kv * (rows * 6) + token * 6 + h]
  {
    FoldedLength(rows);
    RegroupedAt(output, 2, rows, kv, token, h);
    HeadMajorIndex(rows, token, kv, h);
  }

  lemma TransposedCuboid<T>(m: seq<seq<seq<T>>>, a: nat, b: nat)
    requires Cuboid(m, a, b)
    ensures Cuboid(Transposed(m, a), |m|, b)
  {
    var t := Transposed(m, a);
    forall j, i | 0 <= j < a && 0 <= i < |m| ensures |t[j][i]| == b {
      assert t[j][i] == m[i][j];
    }
  }

  /** Entry (kv, token, h) of the folded query is head kv * 6 + h of that token. */
  lemma FoldAt<V>(query: seq<V>, rows: nat, token: nat, kv: nat, h: nat)
    requires |query| == rows * 12 && token < rows && kv < 2 && h < 6
    ensures |FoldQuery(query, rows)| == rows * 12 && kv * (rows * 6) + token * 6 + h < rows * 12
    ensures FoldQuery(query, rows)[kv * (rows * 6) + token * 6 + h] == query[token * 12 + kv * 6 + h]
  {
    TokenMajorAt(query, rows, token, kv, h);
    var m := TokenMajor(query, rows);
    TransposedCuboid(m, 2, 6);
    FlatTwiceEntry(Transposed(m, 2), rows, 6, kv, token, h);
    HeadMajorIndex(rows, token, kv, h);
    FoldedLength(rows);
  }

  lemma FoldedLength(rows: nat)
    ensures At(At(2, rows), 6) == rows * 12 == At(At(rows, 2), 6)
  {
    AtIsProduct(2, rows);
    AtIsProduct(rows, 2);
    AtIsProduct(rows * 2, 6);
  }

  lemma UnfoldAt<V>(output: seq<V>, rows: nat, token: nat, kv: nat, h: nat)
    requires |output| == rows * 12 && token < rows && kv < 2 && h < 6
    ensures |UnfoldOutput(output, rows)| == rows * 12 && kv * (rows * 6) + token * 6 + h < rows * 12
    ensures UnfoldOutput(output, rows)[token * 12 + kv * 6 + h] == output[kv * (rows * 6) + token * 6 + h]
  {
    HeadMajorAt(output, rows, token, kv, h);
    var m := HeadMajor(output, rows);
    TransposedCuboid(m, rows, 6);
    FlatTwiceEntry(Transposed(m, rows), 2, 6, token, kv, h);
    TokenMajorIndex(token, kv, h);
    FoldedLength(rows);
  }

  /** Unfolding undoes folding. */
  lemma UnfoldInvertsFold<V>(query: seq<V>, rows: nat)
    requires |query| == rows * 12 && rows > 0
    ensures |FoldQuery(query, rows)| == rows * 12
    ensures UnfoldOutput(FoldQuery(query, rows), rows) == query
  {
    FoldAt(query, rows, 0, 0, 0);
    var folded := FoldQuery(query, rows);
    UnfoldAt(folded, rows, 0, 0, 0);
    forall k | 0 <= k < rows * 12 ensures UnfoldOutput(folded, rows)[k] == query[k] {
      TokenDigits(k);
      UnfoldedEntry(query, rows, k / 12, (k % 12) / 6, k % 6);
    }
  }

  lemma UnfoldedEntry<V>(query: seq<V>, rows: nat, token: nat, kv: nat, h: nat)
    requires |query| == rows * 12 && token < rows && kv < 2 && h < 6
    ensures |FoldQuery(query, rows)| == rows * 12
    ensures var k := token * 12 + kv * 6 + h;
      k < |UnfoldOutput(FoldQuery(query, rows), rows)| && UnfoldOutput(FoldQuery(query, rows), rows)[k] == query[k]
  {
    FoldAt(query, rows, token, kv, h);
    UnfoldAt(FoldQuery(query, rows), rows, token, kv, h);
  }

  // ----- source_row

  /** The row of the source tensor that holds row `index` of the permuted one. */
  function SourceRow(rows: nat, index: nat, inverse: bool): nat
    requires rows > 0
  {
    if inverse then
      var token, head := index / 12, index % 12;
      (head / 6) * (rows * 6) + token * 6 + head % 6
    else
      var kv, rest := Quotient(index, rows * 6), Remainder(index, rows * 6);
      (rest / 6) * 12 + kv * 6 + rest % 6
  }

  /** An index below rows * 12 in the folded order is a KV head, a token and a head of its group. */
  lemma FoldedDigits(rows: nat, index: nat)
    requires rows > 0 && index < rows * 12
    ensures var kv, rest := Quotient(index, rows * 6), Remainder(index, rows * 6);
      kv < 2 && rest / 6 < rows && index == kv * (rows * 6) + (rest / 6) * 6 + rest % 6
  {
    var width := rows * 6;
    if index >= width {
      assert Quotient(index, width) == 1 + Quotient(index - width, width);
      assert Remainder(index, width) == Remainder(index - width, width);
    }
  }

  lemma FoldedIndex(rows: nat, token: nat, kv: nat, h: nat)
    requires token < rows && kv < 2 && h < 6
    ensures var index := kv * (rows * 6) + token * 6 + h;
      Quotient(index, rows * 6) == kv && Remainder(index, rows * 6) == token * 6 + h
  {
    var width := rows * 6;
    assert token * 6 + h < width;
    if kv == 1 {
      assert Quotient(width + (token * 6 + h), width) == 1 + Quotient(token * 6 + h, width);
    }
  }

  lemma SourceRowDigits(rows: nat, token: nat, kv: nat, h: nat)
    requires token < rows && kv < 2 && h < 6
    ensures SourceRow(rows, kv * (rows * 6) + token * 6 + h, false) == token * 12 + kv * 6 + h
    ensures SourceRow(rows, token * 12 + kv * 6 + h, true) == kv * (rows * 6) + token * 6 + h
  {
    FoldedIndex(rows, token, kv, h);
    var index := token * 12 + kv * 6 + h;
    assert index / 12 == token && index % 12 == kv * 6 + h;
  }

  lemma TokenDigits(index: nat)
    ensures index == (index / 12) * 12 + ((index % 12) / 6) * 6 + index % 6
    ensures (index % 12) / 6 < 2
  {
    var token, head := index / 12, index % 12;
    DivModUnique(index, 6, 2 * token + head / 6, head % 6);
  }

  /** `source_row` is exactly the permutation of `fold_query` and `unfold_output`. */
  lemma FoldFollowsSourceRow<V>(s: seq<V>, rows: nat, index: nat)
    requires |s| == rows * 12 && index < rows * 12
    ensures |FoldQuery(s, rows)| == rows * 12 && SourceRow(rows, index, false) < rows * 12
    ensures FoldQuery(s, rows)[index] == s[SourceRow(rows, index, false)]
  {
    FoldedDigits(rows, index);
    var kv, rest := Quotient(index, rows * 6), Remainder(index, rows * 6);
    var token, h := rest / 6, rest % 6;
    FoldAt(s, rows, token, kv, h);
    SourceRowDigits(rows, token, kv, h);
  }

  lemma UnfoldFollowsSourceRow<V>(s: seq<V>, rows: nat, index: nat)
    requires |s| == rows * 12 && index < rows * 12
    ensures |UnfoldOutput(s, rows)| == rows * 12 && SourceRow(rows, index, true) < rows * 12
    ensures UnfoldOutput(s, rows)[index] == s[SourceRow(rows, index, true)]
  {
    TokenDigits(index);
    var token, kv, h := index / 12, (index % 12) / 6, index % 6;
    UnfoldAt(s, rows, token, kv, h);
    SourceRowDigits(rows, token, kv, h);
  }

  /** The two directions of `source_row` are inverse permutations. */
  lemma SourceRowsInvert(rows: nat, index: nat)
    requires rows > 0 && index < rows * 12
    ensures SourceRow(rows, SourceRow(rows, index, true), false) == index
    ensures SourceRow(rows, SourceRow(rows, index, false), true) == index
  {
    TokenDigits(index);
    SourceRowDigits(rows, index / 12, (index % 12) / 6, index % 6);
    FoldedSourceInverts(rows, index);
  }

  lemma FoldedSourceInverts(rows: nat, index: nat)
    requires rows > 0 && index < rows * 12
    ensures SourceRow(rows, SourceRow(rows, index, false), true) == index
  {
    FoldedDigits(rows, index);
    var kv, rest := Quotient(index, rows * 6), Remainder(index, rows * 6);
    SourceRowDigits(rows, rest / 6, kv, rest % 6);
  }
}
