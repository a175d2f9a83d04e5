/** Conversation history (engine/memoryStore.js) and its pruning (retention/policies.js).
    The table holds the rows of namespace `history`; each SQL statement is one step. */
module History {
  import opened Common

  type Value = string

  /** (scope, scope_id, key); a null or empty `scope_id` counts as the zero UUID. */
  datatype Thread = Thread(scope: string, scopeId: string, key: string)

  datatype Conversation = Conversation(workspace: string, thread: Thread)

  /** The unique index on history rows does not include the workspace, so a slot names one row. */
  datatype Slot = Slot(thread: Thread, seqNo: nat)

  datatype Turn = Turn(workspace: string, value: Value)

  type Table = map<Slot, Turn>

  datatype Failure = UniqueViolation

  // ---- one conversation ------------------------------------------------------------

  function SeqsOf(t: Table, c: Conversation): set<nat> {
    set slot | slot in t && slot.thread == c.thread && t[slot].workspace == c.workspace :: slot.seqNo
  }

  function Turns(t: Table, c: Conversation): map<nat, Value> {
    map n | n in SeqsOf(t, c) :: t[Slot(c.thread, n)].value
  }

  lemma MaxExists(s: set<nat>)
    requires s != {}
    ensures exists m :: m in s && forall x :: x in s ==> x <= m
  {
    var a :| a in s;
    if s != {a} {
      var rest := s - {a};
      assert s == {a} + rest;
      MaxExists(rest);
      var b :| b in rest && forall x :: x in rest ==> x <= b;
      var m := if a <= b then b else a;
      forall x | x in s
        ensures x <= m
      {
        assert x == a || x in rest;
      }
    }
  }

  /** COALESCE(MAX(seq), 0) */
  function MaxSeq(s: set<nat>): (m: nat)
    ensures forall x :: x in s ==> x <= m
    ensures if s == {} then m == 0 else m in s
  {
    if s == {} then 0
    else
      MaxExists(s);
      var m :| m in s && forall x :: x in s ==> x <= m;
      m
  }

  function NextSeq(t: Table, c: Conversation): nat { MaxSeq(SeqsOf(t, c)) + 1 }

  /** The `n` greatest keys, smallest first (all of them if there are fewer). */
  function NewestSeqs(keys: set<nat>, n: nat): (r: seq<nat>)
    ensures forall i :: 0 <= i < |r| ==> r[i] in keys
    decreases n
  {
    if n == 0 || keys == {} then [] else NewestSeqs(keys - {MaxSeq(keys)}, n - 1) + [MaxSeq(keys)]
  }

  function SafeLimit(limit: int): nat { Max(0, Min(limit, 200)) }

  function Load(t: Table, c: Conversation, limit: int): seq<Value> {
    var recent := NewestSeqs(SeqsOf(t, c), SafeLimit(limit));
    seq(|recent|, i requires 0 <= i < |recent| => t[Slot(c.thread, recent[i])].value)
  }

  predicate Ascending(s: seq<nat>) { forall i, j :: 0 <= i < j < |s| ==> s[i] < s[j] }

  /** `chosen` lists the `n` newest keys in ascending order. */
  ghost predicate Newest(keys: set<nat>, n: nat, chosen: seq<nat>) {
    && Ascending(chosen) && |chosen| == Min(n, |keys|)
    && (forall x :: x in chosen ==> x in keys)
    && (forall x, y :: x in keys && x !in chosen && y in chosen ==> x < y)
  }

  lemma {:induction false} NewestSeqsExact(keys: set<nat>, n: nat)
    ensures Newest(keys, n, NewestSeqs(keys, n))
    decreases n
  {
    if n > 0 && keys != {} {
      NewestSeqsExact(keys - {MaxSeq(keys)}, n - 1);
      NewestExtends(keys, n, NewestSeqs(keys - {MaxSeq(keys)}, n - 1));
    }
  }

  lemma NewestExtends(keys: set<nat>, n: nat, before: seq<nat>)
    requires n > 0 && keys != {} && Newest(keys - {MaxSeq(keys)}, n - 1, before)
    ensures Newest(keys, n, before + [MaxSeq(keys)])
  {
    var top := MaxSeq(keys);
    var chosen := before + [top];
    forall x, y | x in keys && x !in chosen && y in chosen
      ensures x < y
    {
      assert x in keys - {top} && x !in before;
    }
    forall i, j | 0 <= i < j < |chosen|
      ensures chosen[i] < chosen[j]
    {
      assert before[i] in keys - {top};
    }
  }

  /** A read returns the values of the newest turns of that conversation, oldest first: as many as asked for,
      but no more than 200. */
  lemma LoadExact(t: Table, c: Conversation, limit: int)
    ensures exists chosen ::
              && Newest(SeqsOf(t, c), if limit <= 0 then 0 else if limit <= 200 then limit else 200, chosen)
              && |Load(t, c, limit)| == |chosen|
              && forall i :: 0 <= i < |chosen| ==>
                   Slot(c.thread, chosen[i]) in t && Load(t, c, limit)[i] == t[Slot(c.thread, chosen[i])].value
  {
    NewestSeqsExact(SeqsOf(t, c), SafeLimit(limit));
  }

  // ---- row transitions -----------------------------------------------------------------

  /** One INSERT: it fails when some workspace already holds the slot. */
  function Append(t: Table, c: Conversation, value: Value): Result<Table, Failure> {
    var slot := Slot(c.thread, NextSeq(t, c));
    if slot in t then Err(UniqueViolation) else Ok(t[slot := Turn(c.workspace, value)])
  }

  function RowsOf(t: Table, c: Conversation): set<Slot> {
    set slot | slot in t && slot.thread == c.thread && t[slot].workspace == c.workspace
  }

  function Above(keys: set<nat>, x: nat): set<nat> { set y | y in keys && y > x }

  /** The row ranks past `keep` among the rows of its conversation, newest first. */
  predicate Excess(t: Table, slot: Slot, keep: nat) {
    slot in t && |Above(SeqsOf(t, Conversation(t[slot].workspace, slot.thread)), slot.seqNo)| >= keep
  }

  function ExcessRows(t: Table, keep: nat): set<Slot> { set slot | slot in t && Excess(t, slot, keep) }

  /** `n` is one more than the greatest number of the conversation, 1 if it has none. */
  ghost predicate NextOf(t: Table, c: Conversation, n: nat) {
    && n >= 1 && (forall x :: x in SeqsOf(t, c) ==> x < n)
    && if SeqsOf(t, c) == {} then n == 1 else n - 1 in SeqsOf(t, c)
  }

  class MemoryStore {
    var rows: Table

    constructor ()
      ensures rows == map[]
    {
      rows := map[];
    }

    /** The insert is tried again once when it hits the unique index. */
    method AppendHistory(c: Conversation, value: Value) returns (r: Result<(), Failure>)
      modifies this
      ensures r.Ok? <==> Append(old(rows), c, value).Ok?
      ensures if r.Ok? then rows == Append(old(rows), c, value).value else rows == old(rows)
      ensures r.Ok? ==> exists n :: NextOf(old(rows), c, n) && Slot(c.thread, n) !in old(rows)
                                    && rows == old(rows)[Slot(c.thread, n) := Turn(c.workspace, value)]
    {
      var attempt := 0;
      while attempt < 2
        invariant 0 <= attempt <= 2 && rows == old(rows)
        invariant attempt > 0 ==> Append(rows, c, value).Err?
      {
        var n := MaxSeq(SeqsOf(rows, c)) + 1;
        if Slot(c.thread, n) !in rows {
          assert NextOf(rows, c, n);
          rows := rows[Slot(c.thread, n) := Turn(c.workspace, value)];
          return Ok(());
        }
        attempt := attempt + 1;
      }
      return Err(UniqueViolation);
    }

    method ClearHistory(c: Conversation) returns (removed: nat)
      modifies this
      ensures rows == old(rows) - RowsOf(old(rows), c)
      ensures removed == |RowsOf(old(rows), c)| && Turns(rows, c) == map[]
      ensures forall slot ::
                if slot in old(rows) && slot.thread == c.thread && old(rows)[slot].workspace == c.workspace
                then slot !in rows else SameAt(rows, old(rows), slot)
    {
      var gone := RowsOf(rows, c);
      rows := rows - gone;
      return |gone|;
    }

    /** `picked` are the rows the LIMIT lets through, which the statement leaves open. */
    method PruneConversationHistory(keepTurns: nat, limit: nat, picked: set<Slot>) returns (removed: nat)
      requires picked <= ExcessRows(rows, keepTurns)
      requires |picked| == Min(limit, |ExcessRows(rows, keepTurns)|)
      modifies this
      ensures rows == old(rows) - picked && removed == |picked| <= limit
      ensures forall c, asked :: asked <= keepTurns ==> Load(rows, c, asked) == Load(old(rows), c, asked)
      ensures removed < limit ==> picked == ExcessRows(old(rows), keepTurns)
    {
      PruneInvisible(rows, picked, keepTurns);
      if |picked| < limit {
        SameSize(picked, ExcessRows(rows, keepTurns));
      }
      rows := rows - picked;
      return |picked|;
    }
  }

  /** The insert succeeds exactly when no row of the thread, of whatever workspace, has the next number;
      a thread that belongs to one workspace never refuses. */
  lemma AppendRefusedIff(t: Table, c: Conversation, value: Value)
    ensures Append(t, c, value).Err?
       <==> exists slot :: slot in t && slot.thread == c.thread && t[slot].workspace != c.workspace
                           && slot.seqNo == NextSeq(t, c)
  {
    var slot := Slot(c.thread, NextSeq(t, c));
    assert slot.seqNo !in SeqsOf(t, c);
  }

  /** What is appended is what the next read ends with; no other conversation changes. */
  lemma AppendThenLoad(t: Table, c: Conversation, value: Value, d: Conversation, limit: int)
    requires Append(t, c, value).Ok? && 1 <= limit <= 200
    ensures var t' := Append(t, c, value).value;
            Load(t', d, limit) == if d == c then Load(t, c, limit - 1) + [value] else Load(t, d, limit)
  {
    var t', n := Append(t, c, value).value, NextSeq(t, c);
    SeqsAfterAppend(t, c, value, d);
    assert forall x :: x in SeqsOf(t, d) ==> Slot(d.thread, x) in t && t'[Slot(d.thread, x)] == t[Slot(d.thread, x)];
    var keys := SeqsOf(t, d);
    if d == c {
      assert MaxSeq(keys + {n}) == n && keys + {n} - {n} == keys;
      assert NewestSeqs(keys + {n}, limit) == NewestSeqs(keys, limit - 1) + [n];
      assert Load(t', c, limit) == Load(t, c, limit - 1) + [value];
    } else {
      assert SeqsOf(t', d) == keys;
      var recent := NewestSeqs(keys, limit);
      assert forall i :: 0 <= i < |recent| ==> recent[i] in keys;
      assert Load(t', d, limit) == Load(t, d, limit);
    }
  }

  // ---- pruning is invisible ------------------------------------------------------------------

  /** `small` lacks only members of `big` that at least `k` greater ones cover. */
  ghost predicate Covers(small: set<nat>, big: set<nat>, k: nat) {
    small <= big && forall x :: x in big && x !in small ==> |Above(big, x)| >= k
  }

  /** The newest number of `big` is also the newest of `small`. */
  lemma CoversStep(small: set<nat>, big: set<nat>, k: nat)
    requires Covers(small, big, k) && k > 0 && big != {}
    ensures var top := MaxSeq(big);
            top in small && MaxSeq(small) == top && Covers(small - {top}, big - {top}, k - 1)
  {
    var top := MaxSeq(big);
    assert Above(big, top) == {};
    forall x | x in big - {top} && x !in small - {top}
      ensures |Above(big - {top}, x)| >= k - 1
    {
      assert Above(big - {top}, x) == Above(big, x) - {top};
    }
  }

  lemma {:induction false} CoversRead(small: set<nat>, big: set<nat>, k: nat, n: nat)
    requires Covers(small, big, k) && n <= k
    ensures NewestSeqs(small, n) == NewestSeqs(big, n)
    decreases n
  {
    if n > 0 && big != {} {
      CoversStep(small, big, k);
      CoversRead(small - {MaxSeq(big)}, big - {MaxSeq(big)}, k - 1, n - 1);
    }
  }

  /** What `k` newer members cover in `big` they still cover in `small`. */
  lemma {:induction false} StillCovered(small: set<nat>, big: set<nat>, k: nat, x: nat)
    requires Covers(small, big, k) && x in big && |Above(big, x)| >= k
    ensures |Above(small, x)| >= k
    decreases k
  {
    if k > 0 {
      var top := MaxSeq(big);
      CoversStep(small, big, k);
      assert Above(big, top) == {};
      assert Above(big - {top}, x) == Above(big, x) - {top};
      StillCovered(small - {top}, big - {top}, k - 1, x);
      var y :| y in Above(big, x);
      assert Above(small, x) == Above(small - {top}, x) + {top};
    }
  }

  /** A covered set of at most `k` members is exactly the `k` newest. */
  lemma CoversExactly(small: set<nat>, big: set<nat>, k: nat)
    requires Covers(small, big, k) && |small| <= k
    ensures small == set x | x in NewestSeqs(big, k)
  {
    var chosen := NewestSeqs(small, k);
    CoversRead(small, big, k, k);
    NewestSeqsExact(small, k);
    forall x | x in small
      ensures x in chosen
    {
      FullPigeonHole(chosen, small, x);
    }
  }

  ghost predicate CoversAll(small: Table, big: Table, k: nat) {
    SubMap(small, big) && forall c: Conversation :: Covers(SeqsOf(small, c), SeqsOf(big, c), k)
  }

  lemma CoversAllRead(small: Table, big: Table, k: nat, c: Conversation, limit: int)
    requires CoversAll(small, big, k) && limit <= k
    ensures Load(small, c, limit) == Load(big, c, limit)
  {
    CoversRead(SeqsOf(small, c), SeqsOf(big, c), k, SafeLimit(limit));
  }

  lemma PruneKeepsCover(small: Table, big: Table, picked: set<Slot>, keep: nat)
    requires CoversAll(small, big, keep) && picked <= ExcessRows(small, keep)
    ensures CoversAll(small - picked, big, keep)
  {
    forall c: Conversation
      ensures Covers(SeqsOf(small - picked, c), SeqsOf(big, c), keep)
    {
      forall x | x in SeqsOf(big, c) && x !in SeqsOf(small - picked, c)
        ensures |Above(SeqsOf(big, c), x)| >= keep
      {
        if x in SeqsOf(small, c) {
          assert Excess(small, Slot(c.thread, x), keep);
          SubsetSize(Above(SeqsOf(small, c), x), Above(SeqsOf(big, c), x));
        }
      }
    }
  }

  lemma PruneInvisible(t: Table, picked: set<Slot>, keep: nat)
    requires picked <= ExcessRows(t, keep)
    ensures forall c, asked :: asked <= keep ==> Load(t - picked, c, asked) == Load(t, c, asked)
  {
    assert CoversAll(t, t, keep);
    PruneKeepsCover(t, t, picked, keep);
    forall c, asked | asked <= keep
      ensures Load(t - picked, c, asked) == Load(t, c, asked)
    {
      CoversAllRead(t - picked, t, keep, c, asked);
    }
  }

  /** A pruning shortens the list of rows past `keep` by what it removed, and by nothing else: however the
      LIMIT picks, repeated prunings work off one fixed set. */
  lemma ExcessAfter(t: Table, picked: set<Slot>, keep: nat)
    requires picked <= ExcessRows(t, keep)
    ensures ExcessRows(t - picked, keep) == ExcessRows(t, keep) - picked
  {
    PruneKeepsCover(t, t, picked, keep);
    forall slot | slot in t - picked
      ensures Excess(t - picked, slot, keep) <==> Excess(t, slot, keep)
    {
      var c := Conversation(t[slot].workspace, slot.thread);
      assert slot.seqNo in SeqsOf(t, c);
      assert Covers(SeqsOf(t - picked, c), SeqsOf(t, c), keep);
      if Excess(t, slot, keep) {
        StillCovered(SeqsOf(t - picked, c), SeqsOf(t, c), keep, slot.seqNo);
      } else {
        SubsetSize(Above(SeqsOf(t - picked, c), slot.seqNo), Above(SeqsOf(t, c), slot.seqNo));
      }
    }
  }

  /** Once no row ranks past `keep`, every conversation holds at most `keep` rows. */
  lemma {:induction false} FewWhenNoneCovered(s: set<nat>, keep: nat)
    requires forall x :: x in s ==> |Above(s, x)| < keep
    ensures |s| <= keep
  {
    if s != {} {
      var m := Least(s);
      assert Above(s, m) == s - {m};
    }
  }

  lemma Least(s: set<nat>) returns (m: nat)
    requires s != {}
    ensures m in s && forall y :: y in s ==> m <= y
  {
    m :| m in s;
    var rest := s - {m};
    assert s == {m} + rest;
    if rest != {} {
      var o := Least(rest);
      m := if o < m then o else m;
    }
  }

  /** After the last pruning a conversation holds exactly the `keep` newest of its turns. */
  lemma DrainedHistory(t: Table, picked: set<Slot>, keep: nat, c: Conversation)
    requires picked == ExcessRows(t, keep)
    ensures SeqsOf(t - picked, c) == set x | x in NewestSeqs(SeqsOf(t, c), keep)
  {
    ExcessAfter(t, picked, keep);
    PruneKeepsCover(t, t, picked, keep);
    forall x | x in SeqsOf(t - picked, c)
      ensures |Above(SeqsOf(t - picked, c), x)| < keep
    {
      assert Slot(c.thread, x) !in ExcessRows(t - picked, keep);
    }
    FewWhenNoneCovered(SeqsOf(t - picked, c), keep);
    CoversExactly(SeqsOf(t - picked, c), SeqsOf(t, c), keep);
  }

  // ---- whole runs -------------------------------------------------------------------------------

  datatype Event =
    | Appended(to: Conversation, value: Value)
    | Cleared(of: Conversation)
    | Pruned(picked: set<Slot>)

  function Cleaned(t: Table, c: Conversation): Table { t - RowsOf(t, c) }

  function Step(t: Table, e: Event): Table {
    match e
    case Appended(c, value) => var r := Append(t, c, value); if r.Ok? then r.value else t
    case Cleared(c) => Cleaned(t, c)
    case Pruned(picked) => t - picked
  }

  function Run(events: seq<Event>): Table {
    if events == [] then map[] else Step(Run(events[..|events| - 1]), events[|events| - 1])
  }

  /** Every pruning step of the run removes only rows past `keep`. */
  ghost predicate PrunesPast(events: seq<Event>, keep: nat) {
    forall i :: 0 <= i < |events| && events[i].Pruned? ==> events[i].picked <= ExcessRows(Run(events[..i]), keep)
  }

  /** Each thread is written by one workspace. */
  predicate OneOwner(e: Event, owner: Thread -> string) {
    e.Appended? ==> e.to.workspace == owner(e.to.thread)
  }

  function WithoutPrunes(events: seq<Event>): seq<Event> {
    if events == [] then []
    else WithoutPrunes(events[..|events| - 1]) + (if events[|events| - 1].Pruned? then [] else [events[|events| - 1]])
  }

  ghost predicate Owned(t: Table, owner: Thread -> string) {
    forall slot :: slot in t ==> t[slot].workspace == owner(slot.thread)
  }

  /** Pruned and unpruned table side by side: covered, and with the same next number everywhere. */
  ghost predicate Alike(small: Table, big: Table, keep: nat, owner: Thread -> string) {
    CoversAll(small, big, keep) && Owned(big, owner)
  }

  lemma SameNext(small: Table, big: Table, keep: nat, c: Conversation)
    requires CoversAll(small, big, keep) && keep >= 1
    ensures NextSeq(small, c) == NextSeq(big, c)
  {
    CoversRead(SeqsOf(small, c), SeqsOf(big, c), keep, 1);
  }

  lemma AppendKeepsAlike(small: Table, big: Table, keep: nat, owner: Thread -> string, c: Conversation, value: Value)
    requires Alike(small, big, keep, owner) && keep >= 1 && c.workspace == owner(c.thread)
    ensures Append(big, c, value).Ok? && Append(small, c, value).Ok?
    ensures Alike(Append(small, c, value).value, Append(big, c, value).value, keep, owner)
  {
    SameNext(small, big, keep, c);
    var n := NextSeq(big, c);
    var slot := Slot(c.thread, n);
    assert n !in SeqsOf(big, c);
    var small', big' := Append(small, c, value).value, Append(big, c, value).value;
    forall d: Conversation
      ensures Covers(SeqsOf(small', d), SeqsOf(big', d), keep)
    {
      SeqsAfterAppend(small, c, value, d);
      SeqsAfterAppend(big, c, value, d);
      assert Covers(SeqsOf(small, d), SeqsOf(big, d), keep);
      forall x | x in SeqsOf(big', d) && x !in SeqsOf(small', d)
        ensures |Above(SeqsOf(big', d), x)| >= keep
      {
        SubsetSize(Above(SeqsOf(big, d), x), Above(SeqsOf(big', d), x));
      }
    }
  }

  lemma SeqsAfterAppend(t: Table, c: Conversation, value: Value, d: Conversation)
    requires Append(t, c, value).Ok?
    ensures SeqsOf(Append(t, c, value).value, d) == SeqsOf(t, d) + (if d == c then {NextSeq(t, c)} else {})
  {
    var t' := Append(t, c, value).value;
    forall x
      ensures x in SeqsOf(t', d) <==> x in SeqsOf(t, d) || (d == c && x == NextSeq(t, c))
    {
      assert x in SeqsOf(t, d) <==> Slot(d.thread, x) in t && t[Slot(d.thread, x)].workspace == d.workspace;
      assert x in SeqsOf(t', d) <==> Slot(d.thread, x) in t' && t'[Slot(d.thread, x)].workspace == d.workspace;
    }
  }

  lemma SeqsAfterClear(t: Table, c: Conversation, d: Conversation)
    ensures SeqsOf(Cleaned(t, c), d) == if d == c then {} else SeqsOf(t, d)
  {
    var t' := Cleaned(t, c);
    forall x
      ensures x in SeqsOf(t', d) <==> d != c && x in SeqsOf(t, d)
    {
      assert x in SeqsOf(t, d) <==> Slot(d.thread, x) in t && t[Slot(d.thread, x)].workspace == d.workspace;
      assert x in SeqsOf(t', d) <==> Slot(d.thread, x) in t' && t'[Slot(d.thread, x)].workspace == d.workspace;
    }
  }

  lemma ClearKeepsAlike(small: Table, big: Table, keep: nat, owner: Thread -> string, c: Conversation)
    requires Alike(small, big, keep, owner)
    ensures Alike(Cleaned(small, c), Cleaned(big, c), keep, owner)
  {
    forall d: Conversation
      ensures Covers(SeqsOf(Cleaned(small, c), d), SeqsOf(Cleaned(big, c), d), keep)
    {
      SeqsAfterClear(small, c, d);
      SeqsAfterClear(big, c, d);
    }
  }

  lemma {:induction false} RunsAlike(events: seq<Event>, keep: nat, owner: Thread -> string)
    requires keep >= 1 && PrunesPast(events, keep)
    requires forall e :: e in events ==> OneOwner(e, owner)
    ensures Alike(Run(events), Run(WithoutPrunes(events)), keep, owner)
  {
    if events != [] {
      var k := |events| - 1;
      var before, e := events[..k], events[k];
      forall i | 0 <= i < k
        ensures before[..i] == events[..i]
      {
      }
      RunsAlike(before, keep, owner);
      var small, big := Run(before), Run(WithoutPrunes(before));
      match e
      case Appended(c, value) =>
        RunSnoc(WithoutPrunes(before), e);
        assert OneOwner(e, owner);
        AppendKeepsAlike(small, big, keep, owner, c, value);
      case Cleared(c) =>
        RunSnoc(WithoutPrunes(before), e);
        ClearKeepsAlike(small, big, keep, owner, c);
      case Pruned(picked) =>
        assert WithoutPrunes(events) == WithoutPrunes(before);
        PruneKeepsCover(small, big, picked, keep);
    }
  }

  lemma RunSnoc(events: seq<Event>, e: Event)
    ensures Run(events + [e]) == Step(Run(events), e)
  {
    assert (events + [e])[..|events|] == events;
  }

  /** Over any run of appends, clears and prunings that keep `keep` turns, each thread written by one
      workspace: every read of at most `keep` turns returns what it would have returned had nothing ever
      been pruned. */
  lemma PruningNeverSeen(events: seq<Event>, keep: nat, owner: Thread -> string, c: Conversation, limit: int)
    requires limit <= keep && PrunesPast(events, keep)
    requires forall e :: e in events ==> OneOwner(e, owner)
    ensures Load(Run(events), c, limit) == Load(Run(WithoutPrunes(events)), c, limit)
  {
    if keep >= 1 {
      RunsAlike(events, keep, owner);
      CoversAllRead(Run(events), Run(WithoutPrunes(events)), keep, c, limit);
    }
  }

  // ---- the exact condition --------------------------------------------------------------------------

  ghost predicate WrittenBy(events: seq<Event>, writers: set<Conversation>) {
    forall e :: e in events && e.Appended? ==> e.to in writers
  }

  /** No two of the writers share a thread. */
  predicate Unshared(writers: set<Conversation>) {
    forall a, b :: a in writers && b in writers && a.thread == b.thread ==> a == b
  }

  /** In every run of these writers, reads of at most `keep` turns are as if nothing had been pruned. */
  ghost predicate NeverSeen(keep: nat, writers: set<Conversation>) {
    forall events, c, limit: int :: PrunesPast(events, keep) && WrittenBy(events, writers) && limit <= keep ==>
      Load(Run(events), c, limit) == Load(Run(WithoutPrunes(events)), c, limit)
  }

  ghost function OwnerOf(writers: set<Conversation>, thread: Thread): string {
    if c :| c in writers && c.thread == thread then c.workspace else ""
  }

  /** `n` turns of one conversation. */
  function NTurns(a: Conversation, value: Value, n: nat): (t: Table)
    ensures forall slot :: slot in t <==> slot.thread == a.thread && 1 <= slot.seqNo <= n
    ensures forall slot :: slot in t ==> t[slot] == Turn(a.workspace, value)
  {
    if n == 0 then map[] else NTurns(a, value, n - 1)[Slot(a.thread, n) := Turn(a.workspace, value)]
  }

  function Numbers(n: nat): (s: set<nat>)
    ensures forall k :: k in s <==> 1 <= k <= n
    ensures |s| == n
  {
    if n == 0 then {} else Numbers(n - 1) + {n}
  }

  function Appends(a: Conversation, value: Value, n: nat): seq<Event> {
    if n == 0 then [] else Appends(a, value, n - 1) + [Appended(a, value)]
  }

  /** `keep + 1` appends by `a`, a pruning of the first turn, and one append by `b`. */
  function SeenRun(a: Conversation, b: Conversation, keep: nat, value: Value): seq<Event> {
    Appends(a, value, keep + 1) + [Pruned({Slot(a.thread, 1)})] + [Appended(b, value)]
  }

  lemma TurnsSeqs(a: Conversation, value: Value, n: nat, c: Conversation)
    ensures SeqsOf(NTurns(a, value, n), c) == if c == a then Numbers(n) else {}
  {
    var t := NTurns(a, value, n);
    forall k: nat
      ensures k in SeqsOf(t, c) <==> c == a && k in Numbers(n)
    {
      assert k in SeqsOf(t, c) <==> Slot(c.thread, k) in t && t[Slot(c.thread, k)].workspace == c.workspace;
    }
  }

  lemma NextTurn(a: Conversation, value: Value, n: nat)
    ensures Append(NTurns(a, value, n), a, value) == Ok(NTurns(a, value, n + 1))
  {
    TurnsSeqs(a, value, n, a);
    assert n > 0 ==> n in Numbers(n);
    assert NextSeq(NTurns(a, value, n), a) == n + 1;
  }

  lemma RunAppended(events: seq<Event>, c: Conversation, value: Value)
    ensures var r := Append(Run(events), c, value);
            Run(events + [Appended(c, value)]) == if r.Ok? then r.value else Run(events)
  {
    hide Append;
    RunSnoc(events, Appended(c, value));
  }

  lemma RunPruned(events: seq<Event>, picked: set<Slot>)
    ensures Run(events + [Pruned(picked)]) == Run(events) - picked
  {
    RunSnoc(events, Pruned(picked));
  }

  lemma {:induction false} AppendsRun(a: Conversation, value: Value, n: nat)
    ensures Run(Appends(a, value, n)) == NTurns(a, value, n)
  {
    hide Append, Step;
    if n > 0 {
      hide Run, NTurns;
      AppendsRun(a, value, n - 1);
      RunAppended(Appends(a, value, n - 1), a, value);
      NextTurn(a, value, n - 1);
    }
  }

  /** After `keep + 1` turns of `a` the first one is past `keep`. */
  lemma FirstIsExcess(a: Conversation, value: Value, keep: nat)
    ensures Excess(NTurns(a, value, keep + 1), Slot(a.thread, 1), keep)
  {
    var t := NTurns(a, value, keep + 1);
    TurnsSeqs(a, value, keep + 1, a);
    assert Slot(a.thread, 1) in t;
    assert Above(Numbers(keep + 1), 1) == Numbers(keep + 1) - {1};
  }

  /** With the first turn of `a` in place `b` is refused; with it pruned `b` gets number 1. */
  lemma PruningLetsIn(a: Conversation, b: Conversation, keep: nat, value: Value)
    requires a.thread == b.thread && a != b && keep >= 1
    ensures var t := NTurns(a, value, keep + 1);
            && Append(t, b, value).Err? && Load(t, b, 1) == []
            && Append(t - {Slot(a.thread, 1)}, b, value).Ok?
            && Load(Append(t - {Slot(a.thread, 1)}, b, value).value, b, 1) == [value]
  {
    var t := NTurns(a, value, keep + 1);
    TurnsSeqs(a, value, keep + 1, b);
    assert Slot(a.thread, 1) in t;
    assert SeqsOf(t - {Slot(a.thread, 1)}, b) == {};
    AppendThenLoad(t - {Slot(a.thread, 1)}, b, value, b, 1);
  }

  lemma UnprunedSnoc(events: seq<Event>, e: Event)
    ensures WithoutPrunes(events + [e]) == WithoutPrunes(events) + (if e.Pruned? then [] else [e])
  {
    assert (events + [e])[..|events|] == events;
  }

  lemma {:induction false} AppendsPlain(a: Conversation, value: Value, n: nat)
    ensures |Appends(a, value, n)| == n && WithoutPrunes(Appends(a, value, n)) == Appends(a, value, n)
    ensures forall e :: e in Appends(a, value, n) ==> e == Appended(a, value)
  {
    if n > 0 {
      AppendsPlain(a, value, n - 1);
      UnprunedSnoc(Appends(a, value, n - 1), Appended(a, value));
    }
  }

  lemma SeenTables(a: Conversation, b: Conversation, keep: nat, value: Value)
    requires a.thread == b.thread && a != b && keep >= 1
    ensures var first, last := Appends(a, value, keep + 1), Appended(b, value);
            && {Slot(a.thread, 1)} <= ExcessRows(Run(first), keep)
            && Load(Run(first + [Pruned({Slot(a.thread, 1)})] + [last]), b, 1) == [value]
            && Load(Run(first + [last]), b, 1) == []
  {
    hide Run, Appends, NTurns, Append, Load, Excess;
    var first, picked := Appends(a, value, keep + 1), {Slot(a.thread, 1)};
    AppendsRun(a, value, keep + 1);
    FirstIsExcess(a, value, keep);
    PruningLetsIn(a, b, keep, value);
    RunPruned(first, picked);
    RunAppended(first + [Pruned(picked)], b, value);
    RunAppended(first, b, value);
  }

  lemma OnePruning(first: seq<Event>, prune: Event, last: Event, keep: nat)
    requires prune.Pruned? && prune.picked <= ExcessRows(Run(first), keep) && !last.Pruned?
    requires forall e :: e in first ==> !e.Pruned?
    ensures PrunesPast(first + [prune] + [last], keep)
  {
    var events := first + [prune] + [last];
    assert forall k :: 0 <= k < |first| ==> events[k] == first[k] && first[k] in first;
    forall i | 0 <= i < |events| && events[i].Pruned?
      ensures events[i].picked <= ExcessRows(Run(events[..i]), keep)
    {
      assert i == |first|;
      assert events[..|first|] == first;
    }
  }

  /** On a thread that two conversations share, pruning a row of one lets through an append of the other that
      the unpruned table refuses. */
  lemma SharedWritersSee(a: Conversation, b: Conversation, keep: nat, value: Value)
    requires a.thread == b.thread && a != b && keep >= 1
    ensures var events := SeenRun(a, b, keep, value);
            && PrunesPast(events, keep)
            && Load(Run(events), b, 1) == [value] && Load(Run(WithoutPrunes(events)), b, 1) == []
    ensures forall e :: e in SeenRun(a, b, keep, value) && e.Appended? ==> e.to == a || e.to == b
  {
    hide Run, Appends, Load, WithoutPrunes, ExcessRows, PrunesPast;
    var first, prune, last := Appends(a, value, keep + 1), Pruned({Slot(a.thread, 1)}), Appended(b, value);
    AppendsPlain(a, value, keep + 1);
    UnprunedSnoc(first, prune);
    UnprunedSnoc(first + [prune], last);
    assert WithoutPrunes(SeenRun(a, b, keep, value)) == first + [last];
    SeenTables(a, b, keep, value);
    OnePruning(first, prune, last, keep);
  }

  /** Pruning to `keep` turns is invisible in all runs of the writers if and only if no two of them share a
      thread, or `keep` is 0 and there is nothing to read. */
  lemma PruningNeverSeenIff(keep: nat, writers: set<Conversation>)
    ensures NeverSeen(keep, writers) <==> keep == 0 || Unshared(writers)
  {
    if keep == 0 || Unshared(writers) {
      forall events, c, limit: int | PrunesPast(events, keep) && WrittenBy(events, writers) && limit <= keep
        ensures Load(Run(events), c, limit) == Load(Run(WithoutPrunes(events)), c, limit)
      {
        if keep > 0 {
          PruningNeverSeen(events, keep, t => OwnerOf(writers, t), c, limit);
        }
      }
    } else {
      var a, b :| a in writers && b in writers && a.thread == b.thread && a != b;
      SharedWritersSee(a, b, keep, "");
      assert WrittenBy(SeenRun(a, b, keep, ""), writers);
      assert !NeverSeen(keep, writers);
    }
  }

  // ---- refusals ---------------------------------------------------------------------------------------

  /** Two workspaces on one thread: once the first has appended, the second is refused. */
  lemma SecondWorkspaceRefused(thread: Thread, value: Value)
    ensures Append(Run([Appended(Conversation("a", thread), value)]), Conversation("b", thread), value).Err?
  {
    var events := [Appended(Conversation("a", thread), value)];
    assert events[..0] == [];
    assert SeqsOf(map[], Conversation("a", thread)) == {};
    assert SeqsOf(Run(events), Conversation("b", thread)) == {};
  }

  /** A refused append stays refused, however often it is tried and whatever else is appended, to this
      conversation or to others: only a clear or a pruning can let it through. */
  lemma {:induction false} RefusedForGood(before: seq<Event>, later: seq<Event>, c: Conversation, value: Value)
    requires Append(Run(before), c, value).Err? && forall e :: e in later ==> e.Appended?
    ensures Append(Run(before + later), c, value).Err?
  {
    if later == [] {
      assert before + later == before;
    } else {
      var k := |later| - 1;
      RefusedForGood(before, later[..k], c, value);
      assert before + later == before + later[..k] + [later[k]];
      RunSnoc(before + later[..k], later[k]);
      StillRefused(Run(before + later[..k]), later[k], c, value);
    }
  }

  lemma StillRefused(t: Table, e: Event, c: Conversation, value: Value)
    requires Append(t, c, value).Err? && e.Appended?
    ensures Append(Step(t, e), c, value).Err?
  {
    if Append(t, e.to, e.value).Ok? {
      assert e.to != c;
      SeqsAfterAppend(t, e.to, e.value, c);
    }
  }

  // ---- numbers are never used twice -----------------------------------------------------------------

  /** How many appends to `c` were accepted since it was last cleared. */
  function Accepted(events: seq<Event>, c: Conversation): nat {
    if events == [] then 0
    else
      var before := events[..|events| - 1];
      match events[|events| - 1]
      case Appended(to, value) =>
        Accepted(before, c) + (if to == c && Append(Run(before), c, value).Ok? then 1 else 0)
      case Cleared(of) => if of == c then 0 else Accepted(before, c)
      case Pruned(_) => Accepted(before, c)
  }

  /** The next number is always one more than the appends accepted since the last clear, pruning or not:
      within one lifetime of a conversation the turns are numbered 1, 2, 3, ... and no number is used
      twice, whoever else writes to the thread. */
  lemma {:induction false} NumbersCountAppends(events: seq<Event>, keep: nat, c: Conversation)
    requires keep >= 1 && PrunesPast(events, keep)
    ensures NextSeq(Run(events), c) == Accepted(events, c) + 1
  {
    if events != [] {
      var k := |events| - 1;
      var before, e := events[..k], events[k];
      forall i | 0 <= i < k
        ensures before[..i] == events[..i]
      {
      }
      NumbersCountAppends(before, keep, c);
      var t := Run(before);
      match e
      case Appended(d, value) =>
        if Append(t, d, value).Ok? {
          SeqsAfterAppend(t, d, value, c);
        }
      case Cleared(d) =>
        SeqsAfterClear(t, d, c);
      case Pruned(picked) =>
        assert CoversAll(t, t, keep);
        PruneKeepsCover(t, t, picked, keep);
        SameNext(t - picked, t, keep, c);
    }
  }

  /** Numbers are used once in every run that keeps `keepTurns` turns exactly when `keepTurns` is at least
      1: with 0, the turn after a pruning takes number 1 again. */
  lemma NumbersUsedOnceIff(keep: nat)
    ensures (forall events, c :: PrunesPast(events, keep) ==> NextSeq(Run(events), c) == Accepted(events, c) + 1)
       <==> keep >= 1
  {
    if keep >= 1 {
      forall events, c | PrunesPast(events, keep)
        ensures NextSeq(Run(events), c) == Accepted(events, c) + 1
      {
        NumbersCountAppends(events, keep, c);
      }
    } else {
      var c := Conversation("", Thread("", "", ""));
      KeepingNoneReuses(c, "");
      var events := [Appended(c, ""), Pruned({Slot(c.thread, 1)})];
      assert PrunesPast(events, keep);
    }
  }

  lemma KeepingNoneReuses(c: Conversation, value: Value)
    ensures var events := [Appended(c, value), Pruned({Slot(c.thread, 1)})];
            PrunesPast(events, 0) && NextSeq(Run(events), c) == 1 && Accepted(events, c) == 1
  {
    var events := [Appended(c, value), Pruned({Slot(c.thread, 1)})];
    var first := events[..1];
    assert first == [Appended(c, value)] && first[..0] == [];
    assert SeqsOf(map[], c) == {};
    assert Run(first) == map[Slot(c.thread, 1) := Turn(c.workspace, value)];
    assert Run(events) == map[];
    assert Accepted(first, c) == 1;
  }
}
