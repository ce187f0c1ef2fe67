/** Attributing acceptance records to users (`attribute` of scripts/ci/acceptance_report.py). */
module Attribution {
  import opened AcceptanceReport
  import opened Results

  datatype Evidence = Order | Position | Audit | StreamTokens | ChunkCount

  /** A record's decode blocks that committed something: the first one's position, and the tokens of each. */
  datatype Record = Record(first: Option<int>, committed: seq<nat>)

  /** What attribution is given; `audits` holds the audited user of each record, if there is one. */
  datatype Case = Case(records: seq<Record>, streams: seq<Stream>, lengths: seq<int>, sequential: bool,
                       audits: seq<Option<nat>>)

  /** Owner and evidence of each record so far. */
  datatype Claims = Claims(owners: seq<Option<nat>>, how: seq<Option<Evidence>>)

  predicate Shaped(c: Case, l: Claims) {
    |l.owners| == |l.how| == |c.records| == |c.audits|
  }

  /** No record is attributed to the user. */
  predicate Untaken(l: Claims, user: nat) {
    forall k :: 0 <= k < |l.owners| ==> l.owners[k] != Some(user)
  }

  /** The stream verdict that a kind of evidence accepts. */
  predicate Accepts(e: Evidence, stream: Stream, record: Record) {
    var verdict := VerdictOf(stream, record.committed);
    if e.StreamTokens? then verdict in {ExactRounds, Coalesced} else verdict == OneChunkPerBlock
  }

  /**
   * Chunk sizes are evidence exactly when they are the record's rounds grouped, and a number of chunks exactly when
   * there is nothing else and it is that of a stream with every round a chunk of its own.
   */
  lemma AcceptsExactlyWhen(stream: Stream, record: Record)
    ensures stream.chunkTokens.None? || stream.chunkTokens.value == [] ==> !Accepts(StreamTokens, stream, record)
    ensures stream.chunkTokens.Some? && stream.chunkTokens.value != [] && Positive(stream.chunkTokens.value) &&
            Positive(record.committed) ==>
              (Accepts(StreamTokens, stream, record) <==> Coarsens(stream.chunkTokens.value, record.committed))
    ensures Accepts(ChunkCount, stream, record) <==>
            && (stream.chunkTokens.None? || stream.chunkTokens.value == []) && stream.chunks.Some?
            && record.committed != []
            && exists deltas :: RoundByRound(deltas, record.committed) && |deltas| == stream.chunks.value
  {
    if stream.chunkTokens.None? || stream.chunkTokens.value == [] {
      CountAgreement(stream, record.committed);
    } else if Positive(stream.chunkTokens.value) && Positive(record.committed) {
      AgreementIsCoarsening(stream.chunkTokens.value, record.committed, stream.chunks);
    }
  }

  /** Nothing still unattributed could take this match's place: neither another record nor another user. */
  predicate Unrivalled(c: Case, l: Claims, k: nat, user: nat, e: Evidence)
    requires Shaped(c, l) && k < |c.records| && user < |c.streams|
  {
    && (forall other :: 0 <= other < |c.records| && other != k && l.owners[other].None? ==>
          !Accepts(e, c.streams[user], c.records[other]))
    && (forall v :: 0 <= v < |c.streams| && v != user && Untaken(l, v) ==> !Accepts(e, c.streams[v], c.records[k]))
  }

  /** What each kind of evidence says of record `k` and its owner. */
  predicate Evident(c: Case, l: Claims, k: nat, user: nat, e: Evidence)
    requires Shaped(c, l) && k < |c.records|
  {
    match e
    case Order => user == k && (c.lengths == [] || (k < |c.lengths| && c.records[k].first == Some(c.lengths[k])))
    case Position =>
      user < |c.lengths| && c.records[k].first == Some(c.lengths[user]) &&
      forall v :: 0 <= v < |c.lengths| && v != user ==> c.lengths[v] != c.lengths[user]
    case Audit => c.audits[k] == Some(user)
    case _ => user < |c.streams| && Accepts(e, c.streams[user], c.records[k]) && Unrivalled(c, l, k, user, e)
  }

  predicate Justified(c: Case, l: Claims, k: nat)
    requires Shaped(c, l) && k < |c.records|
  {
    && (l.owners[k].Some? <==> l.how[k].Some?)
    && (l.owners[k].Some? ==> Evident(c, l, k, l.owners[k].value, l.how[k].value))
  }

  /** No user has two records. */
  predicate OneRecordEach(l: Claims) {
    forall i, j :: 0 <= i < |l.owners| && 0 <= j < |l.owners| && i != j && l.owners[i].Some? ==>
      l.owners[i] != l.owners[j]
  }

  predicate Sound(c: Case, l: Claims) {
    Shaped(c, l) && OneRecordEach(l) && forall k :: 0 <= k < |c.records| ==> Justified(c, l, k)
  }

  function Claimed(l: Claims, k: nat, user: nat, e: Evidence): Claims
    requires k < |l.owners| == |l.how|
  {
    Claims(l.owners[k := Some(user)], l.how[k := Some(e)])
  }

  lemma FewerRivals(c: Case, l: Claims, next: Claims, k: nat, user: nat, e: Evidence)
    requires Shaped(c, l) && Shaped(c, next) && k < |c.records| && Evident(c, l, k, user, e)
    requires forall i :: 0 <= i < |l.owners| && l.owners[i].Some? ==> next.owners[i] == l.owners[i]
    ensures Evident(c, next, k, user, e)
  {
    forall v: nat | Untaken(next, v) ensures Untaken(l, v) {
      forall i | 0 <= i < |l.owners| ensures l.owners[i] != Some(v) {
        assert next.owners[i] != Some(v);
      }
    }
  }

  /** A claim on evidence, of a free record by a free user, keeps every attribution sound. */
  lemma ClaimKeepsSound(c: Case, l: Claims, k: nat, user: nat, e: Evidence)
    requires Sound(c, l) && k < |c.records| && l.owners[k].None? && Untaken(l, user) && Evident(c, l, k, user, e)
    ensures Sound(c, Claimed(l, k, user, e))
  {
    var next := Claimed(l, k, user, e);
    forall i | 0 <= i < |c.records| ensures Justified(c, next, i) {
      assert Justified(c, l, i);
      if i == k {
        FewerRivals(c, l, next, k, user, e);
      } else if l.owners[i].Some? {
        FewerRivals(c, l, next, i, l.owners[i].value, l.how[i].value);
      }
    }
  }

  // ----- Passes

  /** Record `k` is free, the user is free, and the evidence holds. */
  predicate Claimable(c: Case, l: Claims, k: nat, user: nat, e: Evidence)
    requires Shaped(c, l) && k < |c.records|
  {
    l.owners[k].None? && Untaken(l, user) && Evident(c, l, k, user, e)
  }

  /** One record of a pass: attributed if some user can claim it, left as it is otherwise. */
  ghost predicate PassStep(c: Case, l: Claims, next: Claims, k: nat, e: Evidence)
    requires Shaped(c, l) && k < |c.records|
  {
    if exists user: nat :: Claimable(c, l, k, user, e)
    then exists user: nat :: Claimable(c, l, k, user, e) && next == Claimed(l, k, user, e)
    else next == l
  }

  /** The claims before each of the first records of a pass and after the last of them. */
  ghost predicate PassTrace(c: Case, trace: seq<Claims>, e: Evidence) {
    && 0 < |trace| <= |c.records| + 1 && (forall k :: 0 <= k < |trace| ==> Shaped(c, trace[k]))
    && forall k :: 0 <= k < |trace| - 1 ==> TraceStep(c, trace, k, e)
  }

  ghost predicate TraceStep(c: Case, trace: seq<Claims>, k: nat, e: Evidence)
    requires k < |trace| - 1 <= |c.records| && Shaped(c, trace[k])
  {
    PassStep(c, trace[k], trace[k + 1], k, e)
  }

  /** A whole pass: every record in turn is attributed exactly when it can be. */
  ghost predicate Passed(c: Case, l: Claims, next: Claims, e: Evidence) {
    exists trace: seq<Claims> :: PassTrace(c, trace, e) && |trace| == |c.records| + 1 && trace[0] == l &&
        trace[|c.records|] == next
  }

  lemma TraceGrows(c: Case, trace: seq<Claims>, next: Claims, e: Evidence)
    requires PassTrace(c, trace, e) && |trace| <= |c.records| && Shaped(c, next)
    requires PassStep(c, trace[|trace| - 1], next, |trace| - 1, e)
    ensures PassTrace(c, trace + [next], e)
  {
    forall k | 0 <= k < |trace| ensures TraceStep(c, trace + [next], k, e) {
      if k < |trace| - 1 {
        assert TraceStep(c, trace, k, e);
      }
    }
  }

  /** The record of one pass step: claimed on the evidence found, or not at all. */
  method Decide(c: Case, l: Claims, k: nat, user: Option<nat>, e: Evidence, ghost trace: seq<Claims>)
    returns (next: Claims, ghost longer: seq<Claims>)
    requires Sound(c, l) && k < |c.records|
    requires user.Some? ==> Claimable(c, l, k, user.value, e)
    requires user.None? ==> forall u: nat :: !Claimable(c, l, k, u, e)
    requires PassTrace(c, trace, e) && |trace| == k + 1 && trace[k] == l
    ensures Sound(c, next) && PassTrace(c, longer, e) && longer == trace + [next]
    ensures user.None? ==> next == l
    ensures user.Some? ==> next == Claimed(l, k, user.value, e)
  {
    next := l;
    if user.Some? {
      ClaimKeepsSound(c, l, k, user.value, e);
      next := Claimed(l, k, user.value, e);
    }
    TraceGrows(c, trace, next, e);
    longer := trace + [next];
  }

  /** A sequential run with one record per stream: record k is user k, unless the prompt lengths say otherwise. */
  method OrderPass(c: Case, l: Claims) returns (next: Claims)
    requires Sound(c, l) && forall k :: 0 <= k < |l.owners| ==> l.owners[k].None?
    ensures Sound(c, next)
    ensures if c.sequential && |c.records| == |c.streams| then Passed(c, l, next, Order) else next == l
  {
    next := l;
    if !c.sequential || |c.records| != |c.streams| {
      return;
    }
    ghost var trace := [l];
    for index := 0 to |c.records|
      invariant Sound(c, next) && PassTrace(c, trace, Order) && |trace| == index + 1 && trace[0] == l &&
                  trace[index] == next
      invariant forall k :: index <= k < |c.records| ==> next.owners[k].None?
      invariant forall k :: 0 <= k < index ==> next.owners[k] in {None, Some(k)}
    {
      var fits := c.lengths == [] || (index < |c.lengths| && c.records[index].first == Some(c.lengths[index]));
      next, trace := Decide(c, next, index, if fits then Some(index) else None, Order, trace);
    }
  }

  /** The free users whose prompt length is the position of the record's first block. */
  method PositionCandidates(c: Case, l: Claims, first: Option<int>) returns (users: seq<nat>)
    ensures forall u: nat :: u in users <==> u < |c.lengths| && first == Some(c.lengths[u]) && Untaken(l, u)
    ensures forall i, j :: 0 <= i < |users| && 0 <= j < |users| && i != j ==> users[i] != users[j]
  {
    users := [];
    for u := 0 to |c.lengths|
      invariant forall v: nat :: v in users <==> v < u && first == Some(c.lengths[v]) && Untaken(l, v)
      invariant forall i, j :: 0 <= i < |users| && 0 <= j < |users| && i != j ==> users[i] != users[j]
    {
      if first == Some(c.lengths[u]) && Untaken(l, u) {
        users := users + [u];
      }
    }
  }

  /** `lengths.count(first) == 1`, for a length that occurs. */
  method OnlyLength(lengths: seq<int>, user: nat) returns (only: bool)
    requires user < |lengths|
    ensures only == forall v :: 0 <= v < |lengths| && v != user ==> lengths[v] != lengths[user]
  {
    for v := 0 to |lengths|
      invariant forall w :: 0 <= w < v && w != user ==> lengths[w] != lengths[user]
    {
      if v != user && lengths[v] == lengths[user] {
        return false;
      }
    }
    only := true;
  }

  /** The user a record's position singles out. */
  method ByPosition(c: Case, l: Claims, k: nat) returns (user: Option<nat>)
    requires Shaped(c, l) && k < |c.records|
    ensures user.Some? ==> Claimable(c, l, k, user.value, Position)
    ensures user.None? ==> forall u: nat :: !Claimable(c, l, k, u, Position)
  {
    if l.owners[k].Some? {
      return None;
    }
    var users := PositionCandidates(c, l, c.records[k].first);
    if |users| != 1 {
      forall u: nat ensures !Claimable(c, l, k, u, Position) {
        if Claimable(c, l, k, u, Position) {
          SingleUser(users, u);
        }
      }
      return None;
    }
    assert users[0] in users;
    var only := OnlyLength(c.lengths, users[0]);
    user := if only then Some(users[0]) else None;
    forall u: nat | Claimable(c, l, k, u, Position) ensures u == users[0] {
      assert u in users;
    }
  }

  /** Distinct entries that can only be one user. */
  lemma SingleUser(users: seq<nat>, user: nat)
    requires user in users && (forall u :: u in users ==> u == user)
    requires forall i, j :: 0 <= i < |users| && 0 <= j < |users| && i != j ==> users[i] != users[j]
    ensures |users| == 1
  {
    forall i | 0 <= i < |users| ensures users[i] == user {
      assert users[i] in users;
    }
    if |users| > 1 {
      Differ(users, 0, 1);
    }
  }

  lemma Differ(users: seq<nat>, i: nat, j: nat)
    requires i < j < |users| && forall x, y :: 0 <= x < |users| && 0 <= y < |users| && x != y ==> users[x] != users[y]
    ensures users[i] != users[j]
  {
  }

  method PositionPass(c: Case, l: Claims) returns (next: Claims)
    requires Sound(c, l)
    ensures Sound(c, next) && Passed(c, l, next, Position)
  {
    next := l;
    ghost var trace := [l];
    for index := 0 to |c.records|
      invariant Sound(c, next) && PassTrace(c, trace, Position) && |trace| == index + 1 && trace[0] == l &&
                  trace[index] == next
    {
      var user := ByPosition(c, next, index);
      next, trace := Decide(c, next, index, user, Position, trace);
    }
  }

  method AuditPass(c: Case, l: Claims) returns (next: Claims)
    requires Sound(c, l)
    ensures Sound(c, next) && Passed(c, l, next, Audit)
  {
    next := l;
    ghost var trace := [l];
    for index := 0 to |c.records|
      invariant Sound(c, next) && PassTrace(c, trace, Audit) && |trace| == index + 1 && trace[0] == l &&
                  trace[index] == next
    {
      var free := next.owners[index].None? && c.audits[index].Some? && Untaken(next, c.audits[index].value);
      next, trace := Decide(c, next, index, if free then c.audits[index] else None, Audit, trace);
    }
  }

  /** The free users whose stream the evidence accepts for a record. */
  method StreamCandidates(c: Case, l: Claims, record: Record, e: Evidence) returns (users: seq<nat>)
    ensures forall u: nat :: u in users <==> u < |c.streams| && Untaken(l, u) && Accepts(e, c.streams[u], record)
    ensures forall i, j :: 0 <= i < |users| && 0 <= j < |users| && i != j ==> users[i] != users[j]
  {
    users := [];
    for u := 0 to |c.streams|
      invariant forall v: nat :: v in users <==> v < u && Untaken(l, v) && Accepts(e, c.streams[v], record)
      invariant forall i, j :: 0 <= i < |users| && 0 <= j < |users| && i != j ==> users[i] != users[j]
    {
      if Untaken(l, u) && Accepts(e, c.streams[u], record) {
        users := users + [u];
      }
    }
  }

  /** Whether another unattributed record would be accepted for the stream too. */
  method HasRival(c: Case, l: Claims, index: nat, user: nat, e: Evidence) returns (rival: bool)
    requires Shaped(c, l) && user < |c.streams|
    ensures !rival <==> forall other :: 0 <= other < |c.records| && other != index && l.owners[other].None? ==>
                                        !Accepts(e, c.streams[user], c.records[other])
  {
    for other := 0 to |c.records|
      invariant forall o :: 0 <= o < other && o != index && l.owners[o].None? ==>
                            !Accepts(e, c.streams[user], c.records[o])
    {
      if other != index && l.owners[other].None? && Accepts(e, c.streams[user], c.records[other]) {
        return true;
      }
    }
    rival := false;
  }

  /** The user whose stream alone fits the record, when no other free record fits that stream. */
  method ByStream(c: Case, l: Claims, k: nat, e: Evidence) returns (user: Option<nat>)
    requires Shaped(c, l) && k < |c.records| && (e.StreamTokens? || e.ChunkCount?)
    ensures user.Some? ==> Claimable(c, l, k, user.value, e)
    ensures user.None? ==> forall u: nat :: !Claimable(c, l, k, u, e)
  {
    if l.owners[k].Some? {
      return None;
    }
    var users := StreamCandidates(c, l, c.records[k], e);
    if |users| != 1 {
      forall u: nat ensures !Claimable(c, l, k, u, e) {
        if Claimable(c, l, k, u, e) {
          SingleUser(users, u);
        }
      }
      return None;
    }
    assert users[0] in users;
    var rival := HasRival(c, l, k, users[0], e);
    if !rival {
      OnlyCandidate(c, l, k, users, e);
    }
    user := if rival then None else Some(users[0]);
    forall u: nat | Claimable(c, l, k, u, e) ensures u == users[0] {
      assert u in users;
    }
  }

  method StreamPass(c: Case, l: Claims, e: Evidence) returns (next: Claims)
    requires Sound(c, l) && (e.StreamTokens? || e.ChunkCount?)
    ensures Sound(c, next) && Passed(c, l, next, e)
  {
    next := l;
    ghost var trace := [l];
    for index := 0 to |c.records|
      invariant Sound(c, next) && PassTrace(c, trace, e) && |trace| == index + 1 && trace[0] == l &&
                  trace[index] == next
    {
      var user := ByStream(c, next, index, e);
      next, trace := Decide(c, next, index, user, e, trace);
    }
  }

  lemma OnlyCandidate(c: Case, l: Claims, index: nat, users: seq<nat>, e: Evidence)
    requires Shaped(c, l) && index < |c.records| && |users| == 1 && users[0] < |c.streams|
    requires forall u: nat :: u in users <==>
               u < |c.streams| && Untaken(l, u) && Accepts(e, c.streams[u], c.records[index])
    requires forall other :: 0 <= other < |c.records| && other != index && l.owners[other].None? ==>
                             !Accepts(e, c.streams[users[0]], c.records[other])
    ensures Unrivalled(c, l, index, users[0], e)
  {
    forall v | 0 <= v < |c.streams| && v != users[0] && Untaken(l, v)
      ensures !Accepts(e, c.streams[v], c.records[index])
    {
      assert v !in users;
    }
  }

  // ----- attribute

  function Unattributed(c: Case): Claims {
    Claims(seq(|c.records|, _ => None), seq(|c.records|, _ => None))
  }

  /** The passes one after the other, strongest evidence first. */
  ghost predicate Attributed(c: Case, l: Claims) {
    exists ordered: Claims, placed: Claims, audited: Claims, streamed: Claims ::
      && (if c.sequential && |c.records| == |c.streams| then Passed(c, Unattributed(c), ordered, Order)
          else ordered == Unattributed(c))
      && Passed(c, ordered, placed, Position) && Passed(c, placed, audited, Audit)
      && Passed(c, audited, streamed, StreamTokens) && Passed(c, streamed, l, ChunkCount)
  }

  /**
   * `attribute`: every pass attributes exactly the records it can; no user gets two records, every attribution rests
   * on its evidence, and one made on a stream has no rival among the records and users left over at the end.
   */
  method Attribute(c: Case) returns (l: Claims)
    requires |c.audits| == |c.records|
    ensures Sound(c, l) && Attributed(c, l)
  {
    var ordered := OrderPass(c, Unattributed(c));
    var placed := PositionPass(c, ordered);
    var audited := AuditPass(c, placed);
    var streamed := StreamPass(c, audited, StreamTokens);
    l := StreamPass(c, streamed, ChunkCount);
  }
}
