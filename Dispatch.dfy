/**
 * The lockstep batching loop of `Notify`: for one merged receiver, the
 * ToUser, ToParty and ToTag lists are cut into batches of at most 1000, 100
 * and 100 entries, all three cursors advancing once per round, and every
 * round yields one task per message.
 */
module Dispatch {
  import opened Bars
  import opened Config
  import opened Batching

  const ToUserBatchSize: nat := 1000
  const ToPartyBatchSize: nat := 100
  const ToTagBatchSize: nat := 100

  /** One request to be sent: the receiver narrowed to one batch triple, and one message. */
  datatype Task = Task(wechat: Wechat, msg: string)

  function Max3(a: nat, b: nat, c: nat): nat
  {
    if a >= b && a >= c then a else if b >= c then b else c
  }

  /** Rounds needed by lists of `users`, `parties` and `tags` entries: the most any of them needs. */
  function RoundsFor(users: nat, parties: nat, tags: nat): nat
  {
    Max3(Ceil(users, ToUserBatchSize), Ceil(parties, ToPartyBatchSize), Ceil(tags, ToTagBatchSize))
  }

  /** The receiver copy `nw` carrying round `r`'s three batches. */
  function RoundDest(nw: Wechat, users: seq<string>, parties: seq<string>, tags: seq<string>, r: nat): Wechat
  {
    nw.(toUser := Window(users, r * ToUserBatchSize, ToUserBatchSize),
        toParty := Window(parties, r * ToPartyBatchSize, ToPartyBatchSize),
        toTag := Window(tags, r * ToTagBatchSize, ToTagBatchSize))
  }

  /** One task per message for the receiver copy `nw`, in message order. */
  function Fanout(nw: Wechat, msgs: seq<string>): (ts: seq<Task>)
    ensures |ts| == |msgs|
  {
    seq(|msgs|, k requires 0 <= k < |msgs| => Task(nw, msgs[k]))
  }

  /** The receiver copies of the first `n` rounds, in round order. */
  function Dests(nw: Wechat, users: seq<string>, parties: seq<string>, tags: seq<string>, n: nat): (ds: seq<Wechat>)
    ensures |ds| == n
  {
    if n == 0 then [] else Dests(nw, users, parties, tags, n - 1) + [RoundDest(nw, users, parties, tags, n - 1)]
  }

  /** One task per (receiver copy, message) pair, copies in order and, within one copy, messages in order. */
  function Flat(dests: seq<Wechat>, msgs: seq<string>): seq<Task>
  {
    if |dests| == 0 then [] else Flat(dests[..|dests| - 1], msgs) + Fanout(dests[|dests| - 1], msgs)
  }

  /** The tasks of the first `j` rounds, in the order the loop adds them. */
  function Plan(nw: Wechat, users: seq<string>, parties: seq<string>, tags: seq<string>, msgs: seq<string>, j: nat): seq<Task>
  {
    Flat(Dests(nw, users, parties, tags, j), msgs)
  }

  /** The three destination lists of a receiver, as `strings.Split` cuts them. */
  function Users(w: Wechat): seq<string> { Split(w.toUser) }
  function Parties(w: Wechat): seq<string> { Split(w.toParty) }
  function Tags(w: Wechat): seq<string> { Split(w.toTag) }

  /** Rounds the loop runs for receiver `w`. */
  function Rounds(w: Wechat): nat
  {
    RoundsFor(|Users(w)|, |Parties(w)|, |Tags(w)|)
  }

  /** Round `r`'s receiver copy for `w`: its clone carrying round `r`'s batches. */
  function Round(w: Wechat, r: nat): Wechat
  {
    RoundDest(Clone(w), Users(w), Parties(w), Tags(w), r)
  }

  /** Every task the batching loop adds for receiver `w`, in order. */
  function Tasks(w: Wechat, msgs: seq<string>): seq<Task>
  {
    Plan(Clone(w), Users(w), Parties(w), Tags(w), msgs, Rounds(w))
  }

  /** The batching of one merged receiver: split its lists, clone it, run the lockstep loop. */
  method BuildTasks(w: Wechat, msgs: seq<string>) returns (tasks: seq<Task>)
    ensures tasks == Tasks(w, msgs)
  {
    var toUser := Split(w.toUser);
    var toParty := Split(w.toParty);
    var toTag := Split(w.toTag);
    var nw := Clone(w);
    tasks := Lockstep(nw, toUser, toParty, toTag, msgs);
  }

  /**
   * The `for` loop over rounds: while some list still has entries left, take
   * the next batch of each list into `nw` and add one task per message.
   */
  method Lockstep(nw0: Wechat, toUser: seq<string>, toParty: seq<string>, toTag: seq<string>, msgs: seq<string>)
    returns (tasks: seq<Task>)
    ensures tasks == Plan(nw0, toUser, toParty, toTag, msgs, RoundsFor(|toUser|, |toParty|, |toTag|))
  {
    var us: nat, ps: nat, ts: nat := 0, 0, 0;
    var nw := nw0;
    ghost var rounds := RoundsFor(|toUser|, |toParty|, |toTag|);
    ghost var j := 0;
    tasks := [];
    while !(us >= |toUser| && ps >= |toParty| && ts >= |toTag|)
      invariant j <= rounds
      invariant CursorAt(|toUser|, ToUserBatchSize, j, us)
      invariant CursorAt(|toParty|, ToPartyBatchSize, j, ps)
      invariant CursorAt(|toTag|, ToTagBatchSize, j, ts)
      invariant tasks == Plan(nw0, toUser, toParty, toTag, msgs, j)
      invariant Clone(nw) == Clone(nw0)
      decreases rounds - j
    {
      assert j < rounds by { LoopGuard(|toUser|, |toParty|, |toTag|, j, us, ps, ts); }
      var u, p, t;
      ghost var (cu, cp, ct) := (us, ps, ts);
      u, us := Batch(toUser, us, ToUserBatchSize);
      p, ps := Batch(toParty, ps, ToPartyBatchSize);
      t, ts := Batch(toTag, ts, ToTagBatchSize);
      BatchAdvance(toUser, ToUserBatchSize, j, cu, u, us);
      BatchAdvance(toParty, ToPartyBatchSize, j, cp, p, ps);
      BatchAdvance(toTag, ToTagBatchSize, j, ct, t, ts);
      nw := nw.(toUser := u, toParty := p, toTag := t);
      assert nw == RoundDest(nw0, toUser, toParty, toTag, j);
      ghost var before := tasks;
      tasks := AddRound(tasks, nw, msgs);
      assert tasks == Plan(nw0, toUser, toParty, toTag, msgs, j + 1) by {
        PlanStep(nw0, toUser, toParty, toTag, msgs, j, before, nw, tasks);
      }
      j := j + 1;
    }
    LoopGuard(|toUser|, |toParty|, |toTag|, j, us, ps, ts);
  }

  lemma PlanStep(nw0: Wechat, users: seq<string>, parties: seq<string>, tags: seq<string>, msgs: seq<string>, j: nat,
                 before: seq<Task>, nw: Wechat, after: seq<Task>)
    requires before == Plan(nw0, users, parties, tags, msgs, j) && nw == RoundDest(nw0, users, parties, tags, j)
    requires after == before + Fanout(nw, msgs)
    ensures after == Plan(nw0, users, parties, tags, msgs, j + 1)
  {
    var ds := Dests(nw0, users, parties, tags, j + 1);
    assert ds[..j] == Dests(nw0, users, parties, tags, j);
  }

  /** The inner loop over the messages: one task per message, appended in message order. */
  method AddRound(tasks: seq<Task>, nw: Wechat, msgs: seq<string>) returns (tasks': seq<Task>)
    ensures tasks' == tasks + Fanout(nw, msgs)
  {
    ghost var round := Fanout(nw, msgs);
    tasks' := tasks;
    var k := 0;
    while k < |msgs|
      invariant 0 <= k <= |msgs|
      invariant tasks' == tasks + round[..k]
    {
      assert round[..k + 1] == round[..k] + [Task(nw, msgs[k])];
      tasks' := tasks' + [Task(nw, msgs[k])];
      k := k + 1;
    }
    assert round[..k] == round;
  }

  /** The loop's exit test holds after `j` rounds exactly when `j` has reached the rounds needed. */
  lemma LoopGuard(users: nat, parties: nat, tags: nat, j: nat, us: nat, ps: nat, ts: nat)
    requires CursorAt(users, ToUserBatchSize, j, us)
    requires CursorAt(parties, ToPartyBatchSize, j, ps)
    requires CursorAt(tags, ToTagBatchSize, j, ts)
    ensures (us >= users && ps >= parties && ts >= tags) <==> j >= RoundsFor(users, parties, tags)
  {
    CursorDone(users, ToUserBatchSize, j, us);
    CursorDone(parties, ToPartyBatchSize, j, ps);
    CursorDone(tags, ToTagBatchSize, j, ts);
  }

  /** The loop always runs at least once, since a split list is never empty. */
  lemma RoundsPositive(w: Wechat)
    ensures Rounds(w) >= 1
  {
    CeilSpec(|Users(w)|, ToUserBatchSize, 0);
  }

  /**
   * An empty destination list is not left out: `strings.Split` makes it one
   * empty entry, so round 0 sends it as "|".
   */
  lemma EmptyListSent(w: Wechat)
    ensures Rounds(w) >= 1
    ensures w.toUser == "" ==> Round(w, 0).toUser == "|"
    ensures w.toParty == "" ==> Round(w, 0).toParty == "|"
    ensures w.toTag == "" ==> Round(w, 0).toTag == "|"
  {
    RoundsPositive(w);
    assert [""][0..1] == [""];
    assert Suffixed([""]) == "|" by {
      assert [""][..0] == [];
    }
  }

  /** Every receiver copy contributes exactly one task per message. */
  lemma {:induction false} FlatLength(dests: seq<Wechat>, msgs: seq<string>)
    ensures |Flat(dests, msgs)| == |dests| * |msgs|
  {
    if |dests| > 0 {
      FlatLength(dests[..|dests| - 1], msgs);
      assert |dests| * |msgs| == (|dests| - 1) * |msgs| + |msgs|;
    }
  }

  lemma IndexBound(r: nat, k: nat, m: nat, j: nat)
    requires r < j && k < m
    ensures r * m + k < j * m
  {
    MulMono(r + 1, j, m);
  }

  /** Task `k` of copy `r` sends message `k` to copy `r`. */
  lemma {:induction false} FlatAt(dests: seq<Wechat>, msgs: seq<string>, r: nat, k: nat)
    requires r < |dests| && k < |msgs|
    ensures r * |msgs| + k < |Flat(dests, msgs)|
    ensures Flat(dests, msgs)[r * |msgs| + k] == Task(dests[r], msgs[k])
  {
    var n := |dests|;
    var init := dests[..n - 1];
    FlatLength(init, msgs);
    if r < n - 1 {
      IndexBound(r, k, |msgs|, n - 1);
      FlatAt(init, msgs, r, k);
    } else {
      assert r * |msgs| + k == |Flat(init, msgs)| + k;
    }
  }

  /** Round `r`'s receiver copy is entry `r` of the copies. */
  lemma {:induction false} DestsAt(nw: Wechat, users: seq<string>, parties: seq<string>, tags: seq<string>, n: nat, r: nat)
    requires r < n
    ensures Dests(nw, users, parties, tags, n)[r] == RoundDest(nw, users, parties, tags, r)
  {
    if r < n - 1 {
      DestsAt(nw, users, parties, tags, n - 1, r);
    }
  }

  /** The batching loop adds `Rounds(w)` rounds of one task per message. */
  lemma TasksLength(w: Wechat, msgs: seq<string>)
    ensures |Tasks(w, msgs)| == Rounds(w) * |msgs|
  {
    FlatLength(Dests(Clone(w), Users(w), Parties(w), Tags(w), Rounds(w)), msgs);
  }

  /** Task `k` of round `r` for `w` carries round `r`'s batches and message `k`. */
  lemma TasksAt(w: Wechat, msgs: seq<string>, r: nat, k: nat)
    requires r < Rounds(w) && k < |msgs|
    ensures 0 <= r * |msgs| + k < |Tasks(w, msgs)| && Tasks(w, msgs)[r * |msgs| + k] == Task(Round(w, r), msgs[k])
  {
    var ds := Dests(Clone(w), Users(w), Parties(w), Tags(w), Rounds(w));
    MulNonneg(r, |msgs|);
    FlatAt(ds, msgs, r, k);
    DestsAt(Clone(w), Users(w), Parties(w), Tags(w), Rounds(w), r);
  }

  /** The user, party and tag batches of the rounds for `w`, each in round order. */
  function UserBatches(w: Wechat): seq<string> { Windows(Users(w), ToUserBatchSize, Rounds(w)) }
  function PartyBatches(w: Wechat): seq<string> { Windows(Parties(w), ToPartyBatchSize, Rounds(w)) }
  function TagBatches(w: Wechat): seq<string> { Windows(Tags(w), ToTagBatchSize, Rounds(w)) }

  /** Round `r`'s batches are the `r`-th entries of the per-list batch sequences. */
  lemma RoundBatches(w: Wechat, r: nat)
    requires r < Rounds(w)
    ensures Round(w, r).toUser == UserBatches(w)[r]
    ensures Round(w, r).toParty == PartyBatches(w)[r]
    ensures Round(w, r).toTag == TagBatches(w)[r]
  {
    WindowsAt(Users(w), ToUserBatchSize, Rounds(w), r);
    WindowsAt(Parties(w), ToPartyBatchSize, Rounds(w), r);
    WindowsAt(Tags(w), ToTagBatchSize, Rounds(w), r);
  }

  /**
   * Coverage: over all rounds, the user, party and tag batches in round order
   * concatenate to the receiver's lists with one '|' closing every entry, so
   * no entry is dropped, repeated or moved.
   */
  lemma Coverage(w: Wechat)
    ensures Concat(UserBatches(w)) == w.toUser + "|"
    ensures Concat(PartyBatches(w)) == w.toParty + "|"
    ensures Concat(TagBatches(w)) == w.toTag + "|"
  {
    WindowsCover(Users(w), ToUserBatchSize, Rounds(w));
    WindowsCover(Parties(w), ToPartyBatchSize, Rounds(w));
    WindowsCover(Tags(w), ToTagBatchSize, Rounds(w));
    SuffixedIsJoin(Users(w));
    SuffixedIsJoin(Parties(w));
    SuffixedIsJoin(Tags(w));
    JoinSplit(w.toUser);
    JoinSplit(w.toParty);
    JoinSplit(w.toTag);
  }

  /** Bounds: no batch carries more than 1000 users, 100 parties or 100 tags. */
  lemma RoundBounds(w: Wechat, r: nat)
    ensures Entries(Round(w, r).toUser) <= ToUserBatchSize
    ensures Entries(Round(w, r).toParty) <= ToPartyBatchSize
    ensures Entries(Round(w, r).toTag) <= ToTagBatchSize
  {
    WindowBound(Users(w), r * ToUserBatchSize, ToUserBatchSize);
    WindowBound(Parties(w), r * ToPartyBatchSize, ToPartyBatchSize);
    WindowBound(Tags(w), r * ToTagBatchSize, ToTagBatchSize);
  }

  /**
   * A list contributes "" to a round exactly when the rounds it needs are
   * over, i.e. once it is exhausted while another list is not.
   */
  lemma Exhausted(w: Wechat, r: nat)
    ensures Round(w, r).toUser == "" <==> r >= Ceil(|Users(w)|, ToUserBatchSize)
    ensures Round(w, r).toParty == "" <==> r >= Ceil(|Parties(w)|, ToPartyBatchSize)
    ensures Round(w, r).toTag == "" <==> r >= Ceil(|Tags(w)|, ToTagBatchSize)
  {
    WindowEmpty(Users(w), r * ToUserBatchSize, ToUserBatchSize);
    WindowEmpty(Parties(w), r * ToPartyBatchSize, ToPartyBatchSize);
    WindowEmpty(Tags(w), r * ToTagBatchSize, ToTagBatchSize);
    CeilSpec(|Users(w)|, ToUserBatchSize, r);
    CeilSpec(|Parties(w)|, ToPartyBatchSize, r);
    CeilSpec(|Tags(w)|, ToTagBatchSize, r);
  }

  /** Every receiver copy keeps the receiver's scope and transport config. */
  lemma {:induction false} DestsKeep(nw: Wechat, users: seq<string>, parties: seq<string>, tags: seq<string>, n: nat)
    ensures forall i :: 0 <= i < n ==> Clone(Dests(nw, users, parties, tags, n)[i]) == Clone(nw)
  {
    if n > 0 {
      DestsKeep(nw, users, parties, tags, n - 1);
    }
  }

  /** The tasks of a list of copies that share a clone all share it too. */
  lemma {:induction false} FlatKeep(dests: seq<Wechat>, msgs: seq<string>, c: Wechat)
    requires forall i :: 0 <= i < |dests| ==> Clone(dests[i]) == c
    ensures forall i :: 0 <= i < |Flat(dests, msgs)| ==> Clone(Flat(dests, msgs)[i].wechat) == c
  {
    if |dests| > 0 {
      FlatKeep(dests[..|dests| - 1], msgs, c);
    }
  }

  /** Every task for `w` goes out with `w`'s scope and transport config; only the destinations differ. */
  lemma TasksKeep(w: Wechat, msgs: seq<string>)
    ensures forall i :: 0 <= i < |Tasks(w, msgs)| ==> Clone(Tasks(w, msgs)[i].wechat) == Clone(w)
  {
    DestsKeep(Clone(w), Users(w), Parties(w), Tags(w), Rounds(w));
    FlatKeep(Dests(Clone(w), Users(w), Parties(w), Tags(w), Rounds(w)), msgs, Clone(w));
  }
}
