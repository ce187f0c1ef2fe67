/**
 * Per-token causal attention: `SerialAttentionReader` of scripts/ci/attention_batch.py, the reference of the grouped
 * readers. One head of the native attention is an uninterpreted function of its query vector, its KV head, the visible
 * cache cells and the native chunk signature.
 */
module SerialAttention {
  import opened Arithmetic
  import opened ChunkGroups
  import opened Results

  /** Where a cache position lives: page and slot. */
  datatype Cell = Cell(page: nat, slot: nat)

  /** Query vector, KV head, visible cells by position, native workload. */
  type Attention<!V> = (V, nat, map<nat, Cell>, Signature) -> V

  /** Consecutive tokens from cache position `start` on: their cache's page table and native signatures. */
  datatype Ticket = Ticket(start: nat, table: seq<nat>, signatures: seq<Signature>) {
    function Rows(): nat { |signatures| }
  }

  /** The ticket of `rows` tokens at `start` under the native kernel's own chunking. */
  function NativeTicket(start: nat, rows: nat, table: seq<nat>): Ticket {
    Ticket(start, table, Signatures(start, rows, 8))
  }

  /** All positions up to and including `position`. */
  function CausalCells(position: nat, table: seq<nat>): map<nat, Cell> {
    map p: nat | p <= position && p / 64 < |table| :: Cell(table[p / 64], p % 64)
  }

  /** Output vector `k` (token k / 12, head k % 12) of causal attention. */
  function SerialHead<V>(attend: Attention<V>, query: seq<V>, ticket: Ticket, k: nat): V
    requires k < |query| && k < ticket.Rows() * 12
  {
    attend(query[k], (k % 12) / 6, CausalCells(ticket.start + k / 12, ticket.table), ticket.signatures[k / 12])
  }

  /** The outputs of the first `n` tokens. */
  function Serial<V>(attend: Attention<V>, query: seq<V>, ticket: Ticket, n: nat): (out: seq<V>)
    requires n * 12 <= |query| && n <= ticket.Rows()
    ensures |out| == n * 12
    ensures forall k :: 0 <= k < n * 12 ==> out[k] == SerialHead(attend, query, ticket, k)
  {
    seq(n * 12, (k: nat) requires k < n * 12 => SerialHead(attend, query, ticket, k))
  }

  /** One token's heads at one cache position, `share` of them to a KV head. */
  function TokenAttention<V>(attend: Attention<V>, row: seq<V>, share: nat, table: seq<nat>, position: nat)
    : (out: seq<V>)
    requires share > 0
    ensures |out| == |row|
  {
    seq(|row|, (h: nat) requires h < |row| =>
      attend(row[h], h / share, CausalCells(position, table), SignatureOf(position, 8)))
  }

  /** The first `n` tokens, of `heads` heads each, at their own cache positions. */
  function TokensAttention<V>(attend: Attention<V>, query: seq<V>, heads: nat, share: nat, positions: seq<nat>,
                              pages: seq<seq<nat>>, n: nat): (out: seq<V>)
    requires share > 0 && n <= |positions| == |pages| && At(n, heads) <= |query|
    ensures |out| == At(n, heads)
  {
    if n == 0 then []
    else
      TokensAttention(attend, query, heads, share, positions, pages, n - 1) +
      TokenAttention(attend, query[At(n - 1, heads)..At(n, heads)], share, pages[n - 1], positions[n - 1])
  }

  /** Each head of each token comes from its own vector and KV head, at that token's position and page table. */
  lemma {:induction false} HeadOfToken<V>(attend: Attention<V>, query: seq<V>, heads: nat, share: nat,
                                          positions: seq<nat>, pages: seq<seq<nat>>, n: nat, t: nat, h: nat)
    requires share > 0 && t < n <= |positions| == |pages| && h < heads && At(n, heads) <= |query|
    ensures At(t, heads) + h < At(n, heads)
    ensures TokensAttention(attend, query, heads, share, positions, pages, n)[At(t, heads) + h] ==
            attend(query[At(t, heads) + h], h / share, CausalCells(positions[t], pages[t]),
                   SignatureOf(positions[t], 8))
  {
    var before := At(n - 1, heads);
    var front := TokensAttention(attend, query, heads, share, positions, pages, n - 1);
    var row := query[before..At(n, heads)];
    var last := TokenAttention(attend, row, share, pages[n - 1], positions[n - 1]);
    assert TokensAttention(attend, query, heads, share, positions, pages, n) == front + last;
    if t < n - 1 {
      HeadOfToken(attend, query, heads, share, positions, pages, n - 1, t, h);
    } else {
      assert (front + last)[before + h] == last[h] && row[h] == query[before + h];
    }
  }

  lemma OneToken<V>(attend: Attention<V>, query: seq<V>, share: nat, positions: seq<nat>, pages: seq<seq<nat>>)
    requires share > 0 && |positions| == |pages| == 1
    ensures At(1, |query|) == |query|
    ensures TokensAttention(attend, query, |query|, share, positions, pages, 1) ==
            TokenAttention(attend, query, share, pages[0], positions[0])
  {
    assert At(0, |query|) == 0 && query[0..|query|] == query;
    assert TokensAttention(attend, query, |query|, share, positions, pages, 0) == [];
  }

  /** With the twelve heads of a chip, six to a KV head, and a ticket's positions, the tokens are the ticket's. */
  lemma {:induction false} TokensAreSerial<V>(attend: Attention<V>, query: seq<V>, ticket: Ticket, positions: seq<nat>,
                                              pages: seq<seq<nat>>, n: nat)
    requires n <= |positions| == |pages| == ticket.Rows() && n * 12 <= |query|
    requires forall i :: 0 <= i < n ==> RowIs(ticket, positions, pages, i)
    ensures At(n, 12) == n * 12
    ensures TokensAttention(attend, query, 12, 6, positions, pages, n) == Serial(attend, query, ticket, n)
  {
    AtIsProduct(n, 12);
    if n > 0 {
      AtIsProduct(n - 1, 12);
      TokensAreSerial(attend, query, ticket, positions, pages, n - 1);
      assert RowIs(ticket, positions, pages, n - 1);
      TokenIsSerial(attend, query, ticket, n - 1);
    }
  }

  /** Row `i` of the metadata is that of the ticket's token `i`, at its native workload. */
  predicate RowIs(ticket: Ticket, positions: seq<nat>, pages: seq<seq<nat>>, i: nat)
    requires i < |positions| == |pages| == ticket.Rows()
  {
    positions[i] == ticket.start + i && pages[i] == ticket.table && ticket.signatures[i] == SignatureOf(positions[i], 8)
  }

  lemma TokenIsSerial<V>(attend: Attention<V>, query: seq<V>, ticket: Ticket, n: nat)
    requires (n + 1) * 12 <= |query| && n < ticket.Rows() && ticket.signatures[n] == SignatureOf(ticket.start + n, 8)
    ensures Serial(attend, query, ticket, n) +
            TokenAttention(attend, query[n * 12..(n + 1) * 12], 6, ticket.table, ticket.start + n) ==
            Serial(attend, query, ticket, n + 1)
  {
    var token := TokenAttention(attend, query[n * 12..(n + 1) * 12], 6, ticket.table, ticket.start + n);
    forall h | 0 <= h < 12 ensures token[h] == SerialHead(attend, query, ticket, n * 12 + h) {
      TokenOfHead(n, h);
    }
  }

  lemma TokenOfHead(n: nat, h: nat)
    requires h < 12
    ensures (n * 12 + h) / 12 == n && (n * 12 + h) % 12 == h
  {
  }

  /** One cache position and page table per token; every call attends the tokens one by one. */
  class SerialAttentionReader {
    const positions: seq<nat>
    const pages: seq<seq<nat>>
    var calls: nat

    ghost predicate Valid() {
      |positions| in {1, 2, 4, 8, 16, 32} && |pages| == |positions|
    }

    constructor (positions: seq<nat>, pages: seq<seq<nat>>)
      requires |positions| in {1, 2, 4, 8, 16, 32} && |pages| == |positions|
      ensures Valid() && this.positions == positions && this.pages == pages && calls == 0
    {
      this.positions := positions;
      this.pages := pages;
      calls := 0;
    }

    /** A query of one to 32 heads to a token, `share` of them to a KV head of the cache. */
    method Call<V>(attend: Attention<V>, query: seq<V>, heads: nat, share: nat) returns (r: Result<seq<V>>)
      requires Valid() && share > 0
      modifies this
      ensures r.Ok? <==> 0 < heads <= 32 && |query| == At(|positions|, heads)
      ensures r.Ok? ==>
                r.value == TokensAttention(attend, query, heads, share, positions, pages, |positions|)
      ensures calls == old(calls) + (if r.Ok? then 1 else 0)
    {
      var count := |positions|;
      if |query| != At(count, heads) || !(0 < heads <= 32) {
        return Raised;
      }
      if count == 1 {
        calls := calls + 1;
        OneToken(attend, query, share, positions, pages);
        return Ok(TokenAttention(attend, query, share, pages[0], positions[0]));
      }
      var outputs := TokenByToken(attend, query, heads, share);
      calls := calls + 1;
      r := Ok(outputs);
    }

    method TokenByToken<V>(attend: Attention<V>, query: seq<V>, heads: nat, share: nat) returns (outputs: seq<V>)
      requires share > 0 && |pages| == |positions| && |query| == At(|positions|, heads)
      ensures outputs == TokensAttention(attend, query, heads, share, positions, pages, |positions|)
    {
      var count := |positions|;
      outputs := [];
      for index := 0 to count
        invariant At(index, heads) <= |query|
        invariant outputs == TokensAttention(attend, query, heads, share, positions, pages, index)
      {
        AtGrows(index, count, heads);
        var begin, end := At(index, heads), At(index + 1, heads);
        outputs := outputs + TokenAttention(attend, query[begin..end], share, pages[index], positions[index]);
      }
    }
  }
}
