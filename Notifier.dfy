/**
 * The WeChat notifier object: `NewWechatNotifier` resolves its options and
 * merges the receivers into its map; `Notify` renders the messages, cuts
 * every merged receiver's destinations into batches, and sends one task per
 * (batch triple, message).
 */
module Notifier {
  import opened Wrappers
  import opened Bars
  import opened Config
  import opened Options
  import opened Merge
  import opened Dispatch
  import opened Delivery

  /** Every task can be sent: its receiver copy carries a config. */
  predicate Sendable(tasks: seq<Task>)
  {
    forall i :: 0 <= i < |tasks| ==> tasks[i].wechat.config.Some?
  }

  /** The errors the sends of `tasks` report, in task order; sends that report none contribute nothing. */
  function Errors(tasks: seq<Task>, attempt: (Request, nat) -> Outcome): (errs: seq<string>)
    requires Sendable(tasks)
    ensures |errs| <= |tasks|
  {
    if |tasks| == 0 then []
    else
      Errors(tasks[..|tasks| - 1], attempt) + TaskErrors(tasks[|tasks| - 1], attempt)
  }

  /** The error the send of one task reports, as a list of at most one. */
  function TaskErrors(t: Task, attempt: (Request, nat) -> Outcome): (errs: seq<string>)
    requires t.wechat.config.Some?
    ensures |errs| <= 1
  {
    var r := Send(t.wechat, t.msg, attempt);
    if r.err.Some? then [r.err.value] else []
  }

  /** `order` lists every key of `keys` exactly once. */
  predicate IsOrder(order: seq<string>, keys: set<string>)
  {
    (forall i, j :: 0 <= i < j < |order| ==> order[i] != order[j]) &&
    (forall k :: k in keys ==> k in order) &&
    (forall i :: 0 <= i < |order| ==> order[i] in keys)
  }

  /** The tasks of the merged receivers under `order`, receiver by receiver. */
  function AllTasks(m: map<string, Wechat>, order: seq<string>, msgs: seq<string>): seq<Task>
    requires forall i :: 0 <= i < |order| ==> order[i] in m
  {
    if |order| == 0 then []
    else AllTasks(m, order[..|order| - 1], msgs) + Tasks(m[order[|order| - 1]], msgs)
  }

  class Notifier {
    /** Merged receivers, by the hash of their destination-cleared clone. */
    var wechat: map<string, Wechat>
    var timeout: int
    var templateName: string
    var messageMaxSize: int
    var tokenExpires: int

    /** Every merged receiver has a config, so every task built from it can be sent. */
    predicate Valid()
      reads this
    {
      AllConfigured(wechat)
    }

    /** A notifier with resolved settings `s` and no receivers yet. */
    constructor (s: Settings)
      ensures wechat == map[] && Valid()
      ensures timeout == s.timeout && templateName == s.templateName
      ensures messageMaxSize == s.messageMaxSize && tokenExpires == s.tokenExpires
    {
      wechat := map[];
      timeout := s.timeout;
      templateName := s.templateName;
      messageMaxSize := s.messageMaxSize;
      tokenExpires := s.tokenExpires;
    }

    /**
     * `Notify`. `split(size, name)` renders the alert data with template
     * `name` into messages of at most `size` bytes, or fails; it is always
     * called with `MessageMaxSize`, not with the notifier's own setting.
     * A failed split gives no errors at all. Otherwise the ghost `order` is
     * the order the map is visited in, the ghost `tasks` every task built,
     * receiver by receiver, and `errs` the errors their sends report.
     */
    method Notify(split: (int, string) -> Option<seq<string>>, attempt: (Request, nat) -> Outcome)
      returns (errs: seq<string>, ghost order: seq<string>, ghost tasks: seq<Task>)
      requires Valid()
      ensures split(MessageMaxSize, templateName).None? ==> errs == [] && order == [] && tasks == []
      ensures split(MessageMaxSize, templateName).Some? ==>
                IsOrder(order, wechat.Keys) &&
                tasks == AllTasks(wechat, order, split(MessageMaxSize, templateName).value) &&
                Sendable(tasks) && errs == Errors(tasks, attempt)
    {
      var messages := split(MessageMaxSize, templateName);
      if messages.None? {
        return [], [], [];
      }
      var msgs := messages.value;
      var built;
      order, built := BuildAll(wechat, msgs);
      tasks := built;
      AllTasksSendable(wechat, order, msgs);
      errs := SendAll(built, attempt);
    }
  }

  /** The loop over the merged receivers: visit every key once, in some order, and batch its receiver. */
  method BuildAll(m: map<string, Wechat>, msgs: seq<string>) returns (ghost order: seq<string>, tasks: seq<Task>)
    ensures IsOrder(order, m.Keys)
    ensures tasks == AllTasks(m, order, msgs)
  {
    var remaining := m.Keys;
    order, tasks := [], [];
    while remaining != {}
      invariant forall i, j :: 0 <= i < j < |order| ==> order[i] != order[j]
      invariant forall k :: k in m.Keys <==> k in order || k in remaining
      invariant forall k :: k in order ==> k !in remaining
      invariant tasks == AllTasks(m, order, msgs)
      decreases |remaining|
    {
      var k :| k in remaining;
      var ts := BuildTasks(m[k], msgs);
      assert (order + [k])[..|order|] == order;
      tasks := tasks + ts;
      order := order + [k];
      remaining := remaining - {k};
    }
  }

  /** Send every task and collect the errors reported, in task order. */
  method SendAll(tasks: seq<Task>, attempt: (Request, nat) -> Outcome) returns (errs: seq<string>)
    requires Sendable(tasks)
    ensures errs == Errors(tasks, attempt)
  {
    errs := [];
    for i := 0 to |tasks|
      invariant errs == Errors(tasks[..i], attempt)
    {
      var t := tasks[i];
      var r := Send(t.wechat, t.msg, attempt);
      assert tasks[..i + 1][..i] == tasks[..i];
      if r.err.Some? {
        errs := errs + [r.err.value];
      }
    }
    assert tasks[..|tasks|] == tasks;
  }

  /**
   * `NewWechatNotifier`. `loadTemplate(files)` stands for loading the
   * template files, `md5key` for hashing a receiver. Without a template the
   * result is nil; otherwise a notifier whose settings are the resolved
   * options and whose map is the merge of `receivers`.
   */
  method NewWechatNotifier(receivers: seq<Receiver>, opts: Option<ReceiverOptions>,
                           loadTemplate: seq<string> -> bool, md5key: Wechat -> Option<string>)
    returns (n: Notifier?)
    ensures n == null <==> !loadTemplate(TemplatePath(opts))
    ensures n != null ==> fresh(n) && n.Valid() && n.wechat == Merged(receivers, md5key)
    ensures n != null ==> Settings(n.timeout, n.templateName, n.messageMaxSize, n.tokenExpires) == Resolve(opts)
  {
    if !loadTemplate(TemplatePath(opts)) {
      return null;
    }
    n := new Notifier(Resolve(opts));
    for i := 0 to |receivers|
      invariant n.wechat == Merged(receivers[..i], md5key)
      invariant Settings(n.timeout, n.templateName, n.messageMaxSize, n.tokenExpires) == Resolve(opts)
    {
      assert receivers[..i + 1][..i] == receivers[..i];
      n.wechat := MergeReceiver(n.wechat, receivers[i], md5key);
    }
    assert receivers[..|receivers|] == receivers;
  }

  // ----- Properties of the dispatch -----

  /** Every task built for a map whose entries carry configs can be sent, with its receiver's config. */
  lemma {:induction false} AllTasksSendable(m: map<string, Wechat>, order: seq<string>, msgs: seq<string>)
    requires AllConfigured(m)
    requires forall i :: 0 <= i < |order| ==> order[i] in m
    ensures Sendable(AllTasks(m, order, msgs))
  {
    if |order| > 0 {
      AllTasksSendable(m, order[..|order| - 1], msgs);
      TasksKeep(m[order[|order| - 1]], msgs);
    }
  }

  /**
   * Task `r*len(messages)+k` of receiver `w` posts message `k` to round `r`'s
   * batches, as agent `w`'s agent id, to `w`'s API URL, with a token fetched
   * under `w`'s key.
   */
  lemma TaskRequest(w: Wechat, msgs: seq<string>, r: nat, k: nat)
    requires w.config.Some? && r < Rounds(w) && k < |msgs|
    ensures 0 <= r * |msgs| + k < |Tasks(w, msgs)|
    ensures var t := Tasks(w, msgs)[r * |msgs| + k];
            t.wechat.config.Some? &&
            RequestFor(t.wechat, t.msg) ==
              Request(TokenKey(w.config.value), w.config.value.apiUrl,
                      WeChatMessage(msgs[k], UserBatches(w)[r], PartyBatches(w)[r], TagBatches(w)[r],
                                    w.config.value.agentId, "0", "text"))
  {
    TasksAt(w, msgs, r, k);
    RoundBatches(w, r);
  }

  /** All tasks of one receiver fetch the same token with the same request, and invalidate it under the same key. */
  lemma TasksShareToken(w: Wechat, msgs: seq<string>)
    requires w.config.Some?
    ensures forall i :: 0 <= i < |Tasks(w, msgs)| ==>
              Tasks(w, msgs)[i].wechat.config.Some? &&
              TokenRequestFor(Tasks(w, msgs)[i].wechat) == TokenRequestFor(w) &&
              RequestFor(Tasks(w, msgs)[i].wechat, Tasks(w, msgs)[i].msg).tokenKey == TokenKey(w.config.value)
  {
    TasksKeep(w, msgs);
    forall i | 0 <= i < |Tasks(w, msgs)|
      ensures Tasks(w, msgs)[i].wechat.config == w.config && Tasks(w, msgs)[i].wechat.namespace == w.namespace
    {
      assert Clone(Tasks(w, msgs)[i].wechat).config == Clone(w).config;
      assert Clone(Tasks(w, msgs)[i].wechat).namespace == Clone(w).namespace;
    }
  }

  /** The errors of two task lists sent one after the other. */
  lemma {:induction false} ErrorsAppend(a: seq<Task>, b: seq<Task>, attempt: (Request, nat) -> Outcome)
    requires Sendable(a) && Sendable(b)
    ensures Sendable(a + b)
    ensures Errors(a + b, attempt) == Errors(a, attempt) + Errors(b, attempt)
  {
    if |b| == 0 {
      assert a + b == a;
    } else {
      var b', t := b[..|b| - 1], b[|b| - 1];
      assert b == b' + [t];
      ErrorsAppend(a, b', attempt);
      ErrorsAppendStep(a, b', t, attempt);
    }
  }

  /** The induction step of `ErrorsAppend`: one more task at the end of the second list. */
  lemma ErrorsAppendStep(a: seq<Task>, b: seq<Task>, t: Task, attempt: (Request, nat) -> Outcome)
    requires Sendable(a + b) && Sendable(b) && t.wechat.config.Some?
    requires Sendable(a) && Errors(a + b, attempt) == Errors(a, attempt) + Errors(b, attempt)
    ensures Sendable(a + (b + [t])) && Sendable(b + [t])
    ensures Errors(a + (b + [t]), attempt) == Errors(a, attempt) + Errors(b + [t], attempt)
  {
    AppendAssoc(a, b, [t]);
    ErrorsSnoc(a + b, t, attempt);
    ErrorsSnoc(b, t, attempt);
    AppendAssoc(Errors(a, attempt), Errors(b, attempt), TaskErrors(t, attempt));
  }

  /** Concatenation is associative. */
  lemma AppendAssoc<T>(x: seq<T>, y: seq<T>, z: seq<T>)
    ensures (x + y) + z == x + (y + z)
  {
  }

  /** The errors of a task list with one more task at its end. */
  lemma ErrorsSnoc(ts: seq<Task>, t: Task, attempt: (Request, nat) -> Outcome)
    requires Sendable(ts) && t.wechat.config.Some?
    ensures Sendable(ts + [t])
    ensures Errors(ts + [t], attempt) == Errors(ts, attempt) + TaskErrors(t, attempt)
  {
    assert (ts + [t])[..|ts|] == ts;
  }

  /** Tasks whose every first attempt is answered with code 0 report no errors. */
  lemma {:induction false} AllDelivered(tasks: seq<Task>, attempt: (Request, nat) -> Outcome)
    requires Sendable(tasks)
    requires forall i :: 0 <= i < |tasks| ==> Accepted(attempt(RequestFor(tasks[i].wechat, tasks[i].msg), 0))
    ensures Errors(tasks, attempt) == []
  {
    if |tasks| > 0 {
      AllDelivered(tasks[..|tasks| - 1], attempt);
    }
  }

  /** One task whose send reports error `e` makes `e` appear among the errors. */
  lemma {:induction false} ErrorReported(tasks: seq<Task>, attempt: (Request, nat) -> Outcome, i: nat)
    requires Sendable(tasks) && i < |tasks|
    requires Send(tasks[i].wechat, tasks[i].msg, attempt).err.Some?
    ensures Send(tasks[i].wechat, tasks[i].msg, attempt).err.value in Errors(tasks, attempt)
  {
    if i < |tasks| - 1 {
      ErrorReported(tasks[..|tasks| - 1], attempt, i);
    }
  }
}
