/** The committer loop: take a group, commit it, answer its members, repeat. */
module Committer {
  import opened Ids
  import opened Sequences
  import opened Records
  import opened GroupCommit
  import opened GroupFiles
  import opened CloseGroup

  /** One request's sealed batch, under the ticket its answer goes to. */
  datatype Batch = Batch(ticket: nat, entries: seq<Entry>)

  /** Blocks a group carries. */
  function BlocksIn(group: seq<Batch>): nat {
    if group == [] then 0 else BlocksIn(group[..|group| - 1]) + |group[|group| - 1].entries|
  }

  function Carried(c: Option<Batch>): seq<Batch> {
    match c
    case None => []
    case Some(b) => [b]
  }

  /** What the batch a vanished store failed is sent. */
  function Refusal(failed: Option<Batch>): seq<(nat, Outcome)> {
    match failed
    case None => []
    case Some(b) => [(b.ticket, Err)]
  }

  function Members(batches: seq<Batch>): seq<seq<Entry>> {
    seq(|batches|, i requires 0 <= i < |batches| => batches[i].entries)
  }

  predicate BatchOk(b: Batch) {
    forall j :: 0 <= j < |b.entries| ==> EntryOk(b.entries[j])
  }

  lemma {:induction false} EntriesAreBlocks(group: seq<Batch>)
    ensures EntryCount(Members(group)) == BlocksIn(group)
    decreases |group|
  {
    if group != [] {
      var n := |group| - 1;
      EntriesAreBlocks(group[..n]);
      assert Members(group)[..n] == Members(group[..n]);
    }
  }

  // ------------------------------------------------------------- one close

  /** What is on disk, every state it passed through, and what has been refused so far. */
  datatype Durable = Durable(records: Records.Blocks, files: Files, trail: seq<(Records.Blocks, Files)>,
                             faults: nat, lostWrites: nat)

  /** One group's close, from and to which durable state. */
  datatype Close = Close(group: seq<Batch>, answers: seq<Outcome>, work: FileWork, housing: Housing,
                         before: Durable, after: Durable)

  /** The records are those of the members answered Ok, committed in order, and each
      answer is that member's own; nothing was left untried, and a member that has its
      files fails only for a fault of its own; the new files are the placed ones and the
      strays; a kill at any point leaves each record its file, and no more new files
      than the group has blocks. */
  ghost predicate CloseOk(c: Close) {
    && |c.answers| == |c.group|
    && c.after.records == InOrder(c.before.records, Members(c.group), c.answers, c.work.placed)
    && Exact(c.before.records, Members(c.group), c.answers, c.work.placed)
    && Tried(Members(c.group), c.before.records, c.work, c.housing, c.housing.faults - c.before.faults,
             c.after.lostWrites - c.before.lostWrites)
    && c.before.faults <= c.housing.faults <= c.after.faults
    && Isolated(Members(c.group), c.answers, c.work, c.housing, c.after.faults - c.housing.faults)
    && FilesAre(c.before.files, c.after.files, c.work) && WorkOk(Members(c.group), c.before.files, c.work)
    && |c.after.files - c.before.files| <= BlocksIn(c.group)
    && |c.before.trail| <= |c.after.trail|
    && CrashSafe(c.after.trail, |c.before.trail|, c.before.records, c.before.files, BlocksIn(c.group))
  }

  /** The counts after a close are those of the members answered Ok. */
  lemma CloseCounts(c: Close)
    requires CloseOk(c)
    ensures forall b: BlockId ::
              Rc(c.after.records, b) == Rc(c.before.records, b) + OkRefs(Members(c.group), c.answers, b)
  {
    forall b: BlockId
      ensures Rc(c.after.records, b) == Rc(c.before.records, b) + OkRefs(Members(c.group), c.answers, b)
    {
      InOrderCounts(c.before.records, Members(c.group), c.answers, c.work.placed, b);
    }
  }

  /** What the members of a group are sent: each its own answer, under its ticket. */
  function Sent(c: Close): seq<(nat, Outcome)>
    requires |c.answers| == |c.group|
  {
    seq(|c.group|, i requires 0 <= i < |c.group| => (c.group[i].ticket, c.answers[i]))
  }

  /** A kill while a group of at most `cap` blocks is closed adds at most `cap` files
      that no record names. */
  lemma KilledCloseLeavesFew(c: Close, cap: nat, i: nat)
    requires CloseOk(c) && BlocksIn(c.group) <= cap && |c.before.trail| <= i < |c.after.trail|
    ensures Filed(c.after.trail[i].0, c.after.trail[i].1)
    ensures |Recordless(c.after.trail[i].0, c.after.trail[i].1) - Recordless(c.before.records, c.before.files)| <= cap
  {
    KillLeavesFewStrays(c.after.trail, |c.before.trail|, c.before.records, c.before.files, BlocksIn(c.group), i);
  }

  /** Closes follow one another without a gap. */
  ghost predicate Chained(closes: seq<Close>, from: Durable, to: Durable) {
    if closes == [] then from == to
    else closes[|closes| - 1].after == to && Chained(closes[..|closes| - 1], from, closes[|closes| - 1].before)
  }

  function AllSent(closes: seq<Close>): seq<(nat, Outcome)>
    requires forall c :: c in closes ==> |c.answers| == |c.group|
  {
    if closes == [] then [] else AllSent(closes[..|closes| - 1]) + Sent(closes[|closes| - 1])
  }

  /** The closes of these groups, one after another, from one durable state to
      another. */
  ghost predicate Logged(closes: seq<Close>, groups: seq<seq<Batch>>, from: Durable, to: Durable) {
    && |closes| == |groups| && (forall i :: 0 <= i < |closes| ==> closes[i].group == groups[i])
    && (forall c :: c in closes ==> CloseOk(c))
    && Chained(closes, from, to)
  }

  lemma LoggedRound(closes: seq<Close>, groups: seq<seq<Batch>>, from: Durable, c: Close)
    requires Logged(closes, groups, from, c.before) && CloseOk(c)
    ensures Logged(closes + [c], groups + [c.group], from, c.after)
    ensures AllSent(closes + [c]) == AllSent(closes) + Sent(c)
  {
    var more := closes + [c];
    assert more[..|closes|] == closes && more[|closes|] == c;
    forall d | d in more ensures CloseOk(d) { }
  }

  // ---------------------------------------------------------- the station

  /** A queue of sealed batches and the one committer draining it. `queue` has
      arrived, `coming` has not been submitted yet: which part of it arrives
      before the next receive is anybody's guess. `deadlines` counts the windows that
      ran out, `vanished` says that the store was found gone. */
  class Station {
    const cap: nat
    const windowed: bool
    const store: BlockStore
    var queue: seq<Batch>
    var coming: seq<Batch>
    var carried: Option<Batch>
    var groups: seq<seq<Batch>>
    var replies: seq<(nat, Outcome)>
    ghost var closes: seq<Close>
    ghost var deadlines: nat
    ghost var vanished: bool

    constructor (store: BlockStore, cap: nat, windowed: bool, coming: seq<Batch>)
      ensures this.store == store && this.cap == (if cap == 0 then 1 else cap) && this.windowed == windowed
      ensures queue == [] && this.coming == coming && carried.None? && groups == [] && replies == [] && closes == []
      ensures deadlines == 0 && !vanished
    {
      this.store, this.windowed, this.coming := store, windowed, coming;
      this.cap := if cap == 0 then 1 else cap;
      queue, carried, groups, replies, closes, deadlines, vanished := [], None, [], [], [], 0, false;
    }

    ghost function OnDisk(): Durable
      reads store
    {
      Durable(store.records, store.files, store.trail, store.faults, store.lostWrites)
    }

    /** Everything submitted that no group has taken yet, in order. */
    function Waiting(): seq<Batch>
      reads this
    {
      Carried(carried) + (queue + coming)
    }

    /** Some more batches may have arrived. */
    method Arrive()
      modifies this`queue, this`coming
      ensures queue + coming == old(queue + coming) && |queue| >= |old(queue)|
    {
      var n: nat :| n <= |coming|;
      assert coming == coming[..n] + coming[n..];
      queue, coming := queue + coming[..n], coming[n..];
    }

    /** Whether the window runs out before anything else happens. */
    method Deadline() returns (expired: bool)
      modifies this`deadlines
      ensures deadlines == old(deadlines) + if expired then 1 else 0
    {
      expired := *;
      if expired { deadlines := deadlines + 1; }
    }

    /** Whether the store is still there for the committer. */
    method Upgrade() returns (alive: bool)
      modifies this`vanished
      ensures vanished == (old(vanished) || !alive)
    {
      alive := *;
      if !alive { vanished := true; }
    }

    method TakeHead() returns (next: Option<Batch>)
      requires carried.None? && queue != []
      modifies this`queue
      ensures next.Some? && old(Waiting()) == [next.value] + Waiting()
    {
      next := Some(queue[0]);
      assert queue + coming == [queue[0]] + (queue[1..] + coming);
      queue := queue[1..];
    }

    /** `try_recv`: the head of the queue, if something has arrived. */
    method TryReceive() returns (next: Option<Batch>)
      requires carried.None?
      modifies this`queue, this`coming
      ensures next.Some? ==> old(Waiting()) == [next.value] + Waiting()
      ensures next.None? ==> Waiting() == old(Waiting()) && queue == []
    {
      Arrive();
      if queue == [] { return None; }
      next := TakeHead();
    }

    /** `recv`: waits for a batch; none only when nobody will ever submit. */
    method Receive() returns (next: Option<Batch>)
      requires carried.None?
      modifies this`queue, this`coming
      ensures next.Some? ==> old(Waiting()) == [next.value] + Waiting()
      ensures next.None? ==> old(Waiting()) == [] && Waiting() == []
    {
      Arrive();
      if queue == [] {
        if coming == [] { return None; }
        assert coming == [coming[0]] + coming[1..];
        queue, coming := [coming[0]], coming[1..];
      }
      next := TakeHead();
    }

    /** What gathering may do: the group grows by batches taken off the front, and
        one that does not fit is carried over. */
    ghost predicate Gathered(group: seq<Batch>, blocks: nat, first: Batch, all: seq<Batch>)
      reads this
    {
      && group != [] && group[0] == first && blocks == BlocksIn(group)
      && all == group + Waiting()
      && (|first.entries| <= cap ==> blocks <= cap)
      && (carried.Some? ==> blocks + |carried.value.entries| > cap)
    }

    /** One more batch for the group, or for the next one. */
    method Admit(next: Batch, group: seq<Batch>, blocks: nat, ghost first: Batch, ghost all: seq<Batch>)
        returns (group': seq<Batch>, blocks': nat)
      requires carried.None? && group != [] && group[0] == first && blocks == BlocksIn(group)
      requires all == group + [next] + Waiting() && (|first.entries| <= cap ==> blocks <= cap)
      modifies this`carried
      ensures Gathered(group', blocks', first, all)
      ensures carried.Some? ==> group' == group && blocks' == blocks
    {
      if blocks + |next.entries| > cap {
        carried := Some(next);
        group', blocks' := group, blocks;
      } else {
        group', blocks' := group + [next], blocks + |next.entries|;
        assert group'[..|group|] == group;
      }
    }

    /** The two gathering loops of `run`. A group closes at the cap, at a batch
        that does not fit, or when the queue has run dry; within a window only once it
        has run out, or nobody is left to submit anything. */
    method Gather(first: Batch) returns (group: seq<Batch>, blocks: nat)
      requires carried.None?
      modifies this`queue, this`coming, this`carried, this`deadlines
      ensures Gathered(group, blocks, first, [first] + old(Waiting()))
      ensures blocks >= cap || carried.Some? || queue == []
      ensures windowed && blocks < cap && carried.None? ==> deadlines > old(deadlines) || Waiting() == []
    {
      ghost var all := [first] + Waiting();
      group, blocks := [first], |first.entries|;
      assert group[..0] == [];
      var expired := !windowed;
      while !expired && blocks < cap && carried.None?
        invariant Gathered(group, blocks, first, all) && deadlines >= old(deadlines)
        invariant windowed && expired ==> deadlines > old(deadlines) || Waiting() == []
        decreases |Waiting()|, carried.None?, !expired
      {
        expired := Deadline();
        if !expired {
          var next := Receive();
          if next.None? {
            expired := true;                // the queue closed
          } else {
            assert all == group + [next.value] + Waiting();
            group, blocks := Admit(next.value, group, blocks, first, all);
          }
        }
      }
      var dry := false;
      while !dry && carried.None? && blocks < cap
        invariant Gathered(group, blocks, first, all)
        invariant dry ==> queue == []
        invariant windowed && blocks < cap && carried.None? ==> deadlines > old(deadlines) || Waiting() == []
        decreases |Waiting()|, carried.None?, !dry
      {
        var next := TryReceive();
        if next.None? {
          dry := true;
        } else {
          assert all == group + [next.value] + Waiting();
          group, blocks := Admit(next.value, group, blocks, first, all);
        }
      }
    }

    /** The outcome of each member, under its ticket. */
    method Answers(group: seq<Batch>, answers: seq<Outcome>) returns (sent: seq<(nat, Outcome)>)
      requires |answers| == |group|
      ensures |sent| == |group| && forall k :: 0 <= k < |group| ==> sent[k] == (group[k].ticket, answers[k])
    {
      sent := [];
      for i := 0 to |group|
        invariant |sent| == i && forall k :: 0 <= k < i ==> sent[k] == (group[k].ticket, answers[k])
      {
        sent := sent + [(group[i].ticket, answers[i])];
      }
    }

    /** Every batch is answered with its own outcome, in the order of the group. */
    method CommitGroup(group: seq<Batch>)
      requires Filed(store.records, store.files) && forall i :: 0 <= i < |group| ==> BatchOk(group[i])
      modifies store, this`groups, this`replies, this`closes
      ensures |closes| == |old(closes)| + 1 && closes == old(closes) + [closes[|old(closes)|]]
      ensures var c := closes[|old(closes)|];
              && CloseOk(c) && c.group == group && c.before == old(OnDisk()) && c.after == OnDisk()
              && replies == old(replies) + Sent(c)
      ensures groups == old(groups) + [group]
      ensures Filed(store.records, store.files)
      ensures forall b: BlockId :: Rc(store.records, b)
                == Rc(old(store.records), b) + OkRefs(Members(group), closes[|old(closes)|].answers, b)
    {
      ghost var before := OnDisk();
      var answers, w, h := CloseGroup.CloseGroup(store, Members(group));
      EntriesAreBlocks(group);
      ghost var c := Close(group, answers, w, h, before, OnDisk());
      var sent := Answers(group, answers);
      assert sent == Sent(c);
      replies, groups, closes := replies + sent, groups + [group], closes + [c];
      CloseCounts(c);
    }

    /** The batch that leads the next group: the carried one, or the next to
        arrive. */
    method TakeFirst() returns (first: Option<Batch>)
      modifies this`queue, this`coming, this`carried
      ensures carried.None?
      ensures first.Some? ==> old(Waiting()) == [first.value] + Waiting()
      ensures first.None? ==> old(Waiting()) == [] && Waiting() == []
    {
      if carried.Some? {
        first := carried;
        carried := None;
      } else {
        first := Receive();
      }
    }

    /** Where the committer stands: the submissions are the closed groups, then what is
        still waiting. */
    ghost predicate Running(submitted: seq<Batch>, start: Durable, waiting: seq<Batch>)
      reads this`groups, this`replies, this`closes, store
    {
      && Partition(submitted, groups, replies, [], waiting, cap)
      && (forall b :: b in submitted ==> BatchOk(b))
      && Filed(store.records, store.files) && Tallied(store.records, start.records, Flatten(groups), replies)
      && Logged(closes, groups, start, OnDisk()) && replies == AllSent(closes)
    }

    /** Gather a group behind `first`, commit it, answer it. */
    method Round(first: Batch, ghost submitted: seq<Batch>, ghost start: Durable)
      requires carried.None? && Running(submitted, start, [first] + Waiting())
      modifies this`queue, this`coming, this`carried, this`deadlines, this`groups, this`replies, this`closes, store
      ensures Running(submitted, start, Waiting())
      ensures |Waiting()| <= |old(Waiting())|
    {
      ghost var done, sent, log := groups, replies, closes;
      var group, blocks := Gather(first);
      GroupFromSubmitted(submitted, done, sent, group, Waiting(), cap);
      CommitGroup(group);
      ghost var c := closes[|log|];
      RoundAdds(submitted, done, sent, log, c, Waiting(), cap, start);
    }

    /** How a run ends: the groups, then the batch a vanished store failed, then what
        was never received, are the submissions in order; each group was closed after
        the one before, and each member sent its own outcome; the counts are those of
        the batches answered Ok. */
    ghost predicate Ended(submitted: seq<Batch>, start: Durable, failed: Option<Batch>)
      reads this, store
    {
      && Partition(submitted, groups, replies, Carried(failed), Waiting(), cap)
      && Tallied(store.records, start.records, Flatten(groups) + Carried(failed), replies)
      && Logged(closes, groups, start, OnDisk()) && replies == AllSent(closes) + Refusal(failed)
      && Filed(store.records, store.files)
    }

    /** The store has gone: the batch in hand is failed, and nothing after it taken. */
    method GiveUp(first: Batch, ghost submitted: seq<Batch>, ghost start: Durable)
      requires Running(submitted, start, [first] + Waiting())
      modifies this`replies
      ensures Ended(submitted, start, Some(first))
    {
      FailedLast(submitted, groups, replies, first, Waiting(), cap, store.records, start.records);
      replies := replies + [(first.ticket, Err)];
    }

    ghost method Stop(submitted: seq<Batch>, start: Durable)
      requires Running(submitted, start, Waiting())
      ensures Ended(submitted, start, None)
    {
      assert Flatten(groups) + [] == Flatten(groups);
      assert AllSent(closes) + [] == AllSent(closes);
    }

    /** One turn of the loop: a group, or the end because nobody will submit anything more
        or the store has gone. */
    method Turn(ghost submitted: seq<Batch>, ghost start: Durable) returns (over: bool, failed: Option<Batch>)
      requires Running(submitted, start, Waiting()) && !vanished
      modifies this, store
      ensures !over ==> Running(submitted, start, Waiting()) && !vanished && |Waiting()| < |old(Waiting())|
      ensures over ==> Ended(submitted, start, failed) && carried.None?
      ensures over ==> (failed.None? ==> Waiting() == []) && (failed.Some? <==> vanished)
    {
      failed := None;
      var first := TakeFirst();
      if first.None? {
        Stop(submitted, start);
        return true, None;
      }
      var alive := Upgrade();
      if !alive {
        GiveUp(first.value, submitted, start);
        return true, first;
      }
      Round(first.value, submitted, start);
      over := false;
    }

    /** The committer's whole run, for any window and any arrival pattern. */
    method Run() returns (failed: Option<Batch>)
      requires groups == [] && replies == [] && closes == [] && !vanished && Filed(store.records, store.files)
      requires forall b :: b in Waiting() ==> BatchOk(b)
      modifies this, store
      ensures carried.None? && (failed.None? ==> Waiting() == []) && (failed.Some? <==> vanished)
      ensures Ended(old(Waiting()), old(OnDisk()), failed)
    {
      ghost var submitted, start := Waiting(), OnDisk();
      while true
        invariant Running(submitted, start, Waiting()) && !vanished
        decreases |Waiting()|
      {
        var over;
        over, failed := Turn(submitted, start);
        if over { return; }
      }
    }
  }

  // ------------------------------------------------------- the loop's account

  /** Groups, then `held`, then `waiting` are the submissions in order; the first
      two are answered, each batch once and under its own ticket; no group is
      empty, and none exceeds the cap when every batch is within it. */
  ghost predicate Partition(submitted: seq<Batch>, groups: seq<seq<Batch>>, replies: seq<(nat, Outcome)>,
                            held: seq<Batch>, waiting: seq<Batch>, cap: nat)
  {
    && submitted == Flatten(groups) + held + waiting
    && |replies| == |Flatten(groups)| + |held|
    && (forall i :: 0 <= i < |replies| ==> replies[i].0 == submitted[i].ticket)
    && (forall g :: g in groups ==> g != [] && (AllFit(submitted, cap) ==> BlocksIn(g) <= cap))
  }

  predicate AllFit(batches: seq<Batch>, cap: nat) {
    forall b :: b in batches ==> |b.entries| <= cap
  }

  /** The counts are those of the batches answered Ok. */
  ghost predicate Tallied(records: Records.Blocks, start: Records.Blocks, batches: seq<Batch>,
                          replies: seq<(nat, Outcome)>) {
    |batches| == |replies| &&
    forall b: BlockId :: Rc(records, b) == Rc(start, b) + OkRefs(Members(batches), Outcomes(replies), b)
  }

  lemma GroupFromSubmitted(submitted: seq<Batch>, groups: seq<seq<Batch>>, replies: seq<(nat, Outcome)>,
                           group: seq<Batch>,
                           waiting: seq<Batch>, cap: nat)
    requires Partition(submitted, groups, replies, [], group + waiting, cap)
    ensures forall i :: 0 <= i < |group| ==> group[i] in submitted
    ensures submitted == Flatten(groups) + group + waiting
  {
    var n := |Flatten(groups)|;
    forall i | 0 <= i < |group| ensures group[i] in submitted { assert submitted[n + i] == group[i]; }
  }

  lemma TicketsRound(submitted: seq<Batch>, before: seq<Batch>, replies: seq<(nat, Outcome)>, group: seq<Batch>,
                     sent: seq<(nat, Outcome)>, waiting: seq<Batch>)
    requires submitted == before + group + waiting && |replies| == |before| && |sent| == |group|
    requires forall i :: 0 <= i < |replies| ==> replies[i].0 == submitted[i].ticket
    requires forall i :: 0 <= i < |group| ==> sent[i].0 == group[i].ticket
    ensures forall i :: 0 <= i < |replies + sent| ==> (replies + sent)[i].0 == submitted[i].ticket
  {
    var all := replies + sent;
    forall i | 0 <= i < |all| ensures all[i].0 == submitted[i].ticket {
      if i >= |replies| { assert submitted[i] == group[i - |replies|] && all[i] == sent[i - |replies|]; }
    }
  }

  lemma GroupsRound(groups: seq<seq<Batch>>, group: seq<Batch>, fits: bool, cap: nat)
    requires forall g :: g in groups ==> g != [] && (fits ==> BlocksIn(g) <= cap)
    requires group != [] && (fits ==> BlocksIn(group) <= cap)
    ensures forall g :: g in groups + [group] ==> g != [] && (fits ==> BlocksIn(g) <= cap)
  {
  }

  lemma PartitionRound(submitted: seq<Batch>, groups: seq<seq<Batch>>, replies: seq<(nat, Outcome)>, group: seq<Batch>,
                       sent: seq<(nat, Outcome)>, waiting: seq<Batch>, cap: nat)
    requires Partition(submitted, groups, replies, [], group + waiting, cap)
    requires |sent| == |group| && forall i :: 0 <= i < |group| ==> sent[i].0 == group[i].ticket
    requires group != [] && (|group[0].entries| <= cap ==> BlocksIn(group) <= cap)
    ensures Partition(submitted, groups + [group], replies + sent, [], waiting, cap)
  {
    FlattenStep(groups, group);
    GroupFromSubmitted(submitted, groups, replies, group, waiting, cap);
    TicketsRound(submitted, Flatten(groups), replies, group, sent, waiting);
    assert group[0] in submitted;
    GroupsRound(groups, group, AllFit(submitted, cap), cap);
    assert Flatten(groups) + group + [] == Flatten(groups) + group;
  }

  lemma TalliedRound(before: Records.Blocks, after: Records.Blocks, start: Records.Blocks, groups: seq<seq<Batch>>,
                     replies: seq<(nat, Outcome)>, group: seq<Batch>, sent: seq<(nat, Outcome)>)
    requires Tallied(before, start, Flatten(groups), replies) && |sent| == |group|
    requires forall b: BlockId :: Rc(after, b) == Rc(before, b) + OkRefs(Members(group), Outcomes(sent), b)
    ensures Tallied(after, start, Flatten(groups + [group]), replies + sent)
  {
    FlattenStep(groups, group);
    forall b: BlockId
      ensures Rc(after, b) == Rc(start, b) + OkRefs(Members(Flatten(groups + [group])), Outcomes(replies + sent), b)
    {
      OkRefsAppend(Flatten(groups), replies, group, sent, b);
    }
  }

  /** What one close adds to the account. */
  lemma RoundAdds(submitted: seq<Batch>, groups: seq<seq<Batch>>, replies: seq<(nat, Outcome)>, closes: seq<Close>,
                  c: Close,
                  waiting: seq<Batch>, cap: nat, start: Durable)
    requires Partition(submitted, groups, replies, [], c.group + waiting, cap)
    requires Tallied(c.before.records, start.records, Flatten(groups), replies)
    requires Logged(closes, groups, start, c.before) && replies == AllSent(closes) && CloseOk(c)
    requires c.group != [] && (|c.group[0].entries| <= cap ==> BlocksIn(c.group) <= cap)
    ensures Partition(submitted, groups + [c.group], replies + Sent(c), [], waiting, cap)
    ensures Tallied(c.after.records, start.records, Flatten(groups + [c.group]), replies + Sent(c))
    ensures Logged(closes + [c], groups + [c.group], start, c.after) && AllSent(closes + [c]) == replies + Sent(c)
  {
    assert Outcomes(Sent(c)) == c.answers;
    CloseCounts(c);
    PartitionRound(submitted, groups, replies, c.group, Sent(c), waiting, cap);
    TalliedRound(c.before.records, c.after.records, start.records, groups, replies, c.group, Sent(c));
    LoggedRound(closes, groups, start, c);
  }

  lemma FailedLast(submitted: seq<Batch>, groups: seq<seq<Batch>>, replies: seq<(nat, Outcome)>, first: Batch,
                   waiting: seq<Batch>,
                   cap: nat, records: Records.Blocks, start: Records.Blocks)
    requires Partition(submitted, groups, replies, [], [first] + waiting, cap)
    requires Tallied(records, start, Flatten(groups), replies)
    ensures Partition(submitted, groups, replies + [(first.ticket, Err)], [first], waiting, cap)
    ensures Tallied(records, start, Flatten(groups) + [first], replies + [(first.ticket, Err)])
  {
    GroupFromSubmitted(submitted, groups, replies, [first], waiting, cap);
    assert submitted[|replies|] == first;
    var one := [first];
    assert Members(one)[..0] == [] && Outcomes([(first.ticket, Err)])[..0] == [];
    forall b: BlockId
      ensures OkRefs(Members(Flatten(groups) + [first]), Outcomes(replies + [(first.ticket, Err)]), b)
           == OkRefs(Members(Flatten(groups)), Outcomes(replies), b)
    {
      OkRefsAppend(Flatten(groups), replies, one, [(first.ticket, Err)], b);
    }
  }

  function Outcomes(replies: seq<(nat, Outcome)>): seq<Outcome> {
    seq(|replies|, i requires 0 <= i < |replies| => replies[i].1)
  }

  lemma {:induction false} OkRefsAppend(xs: seq<Batch>, rx: seq<(nat, Outcome)>, ys: seq<Batch>,
                                        ry: seq<(nat, Outcome)>, b: BlockId)
    requires |xs| == |rx| && |ys| == |ry|
    ensures OkRefs(Members(xs + ys), Outcomes(rx + ry), b)
              == OkRefs(Members(xs), Outcomes(rx), b) + OkRefs(Members(ys), Outcomes(ry), b)
    decreases |ys|
  {
    if ys == [] {
      assert xs + ys == xs && rx + ry == rx;
    } else {
      var n := |ys| - 1;
      OkRefsAppend(xs, rx, ys[..n], ry[..n], b);
      assert Members(xs + ys)[..|xs| + n] == Members(xs + ys[..n]) &&
          Outcomes(rx + ry)[..|xs| + n] == Outcomes(rx + ry[..n]);
      assert Members(ys)[..n] == Members(ys[..n]) && Outcomes(ry)[..n] == Outcomes(ry[..n]);
    }
  }
}
