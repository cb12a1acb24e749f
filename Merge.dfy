/**
 * Receiver merging in `NewWechatNotifier`: every usable WeChat receiver is
 * keyed by a hash of its destination-cleared clone, and receivers that share
 * a key are folded into one map entry whose three destination strings are
 * the '|'-joined destinations of all of them.
 *
 * `Md5key` is not part of this model: it is a parameter `md5key`, a total
 * function that either yields a key or fails (`None`).
 */
module Merge {
  import opened Wrappers
  import opened Bars
  import opened Config

  const DefaultApiURL: string := "https://qyapi.weixin.qq.com/cgi-bin/"

  /** The receiver with an empty API URL replaced by the default one. */
  function Normalize(w: Wechat): (n: Wechat)
    requires w.config.Some?
    ensures n.config.Some? && |n.config.value.apiUrl| > 0
    ensures |w.config.value.apiUrl| > 0 ==> n == w
    ensures |w.config.value.apiUrl| == 0 ==> n == w.(config := Some(w.config.value.(apiUrl := DefaultApiURL)))
  {
    if |w.config.value.apiUrl| == 0 then w.(config := Some(w.config.value.(apiUrl := DefaultApiURL))) else w
  }

  /** One destination update: append "|" and the receiver's value when it is non-empty, then trim one leading '|'. */
  function AppendDest(prev: string, v: string): string
  {
    TrimBar(if |v| > 0 then prev + "|" + v else prev)
  }

  /** The three destination updates of one merge step, folding receiver `nw` into entry `w`. */
  function Updated(w: Wechat, nw: Wechat): Wechat
  {
    w.(toUser := AppendDest(w.toUser, nw.toUser),
       toTag := AppendDest(w.toTag, nw.toTag),
       toParty := AppendDest(w.toParty, nw.toParty))
  }

  /** The three destination lists of a receiver, named, so that one lemma covers all three. */
  datatype Field = User | Party | Tag

  function Get(w: Wechat, f: Field): string
  {
    match f
    case User => w.toUser
    case Party => w.toParty
    case Tag => w.toTag
  }

  /** The normalized receiver a list element contributes, if it is a non-nil WeChat receiver with a config. */
  function Usable(r: Receiver): Option<Wechat>
  {
    if r.WechatReceiver? && r.wechat.config.Some? then Some(Normalize(r.wechat)) else None
  }

  /** The key a list element is merged under, or `None` when the loop skips it. */
  function KeyOf(r: Receiver, md5key: Wechat -> Option<string>): Option<string>
  {
    match Usable(r)
    case None => None
    case Some(w) => md5key(Clone(w))
  }

  /** Every entry of the merged map carries a config with a non-empty API URL. */
  predicate AllConfigured(m: map<string, Wechat>)
  {
    forall k :: k in m ==> m[k].config.Some? && |m[k].config.value.apiUrl| > 0
  }

  /** One iteration of the merge loop. */
  function MergeStep(m: map<string, Wechat>, r: Receiver, md5key: Wechat -> Option<string>): (m': map<string, Wechat>)
    ensures KeyOf(r, md5key).None? ==> m' == m
    ensures KeyOf(r, md5key).Some? ==> m'.Keys == m.Keys + {KeyOf(r, md5key).value}
    ensures forall k :: k in m && Some(k) != KeyOf(r, md5key) ==> k in m' && m'[k] == m[k]
    ensures AllConfigured(m) ==> AllConfigured(m')
  {
    match Usable(r)
    case None => m
    case Some(nw) =>
      var c := Clone(nw);
      match md5key(c)
      case None => m
      case Some(key) =>
        var w := if key in m then m[key] else c;
        m[key := Updated(w, nw)]
  }

  /** The map after the loop has run over `rs`. */
  function Merged(rs: seq<Receiver>, md5key: Wechat -> Option<string>): (m: map<string, Wechat>)
    ensures AllConfigured(m)
  {
    if |rs| == 0 then map[] else MergeStep(Merged(rs[..|rs| - 1], md5key), rs[|rs| - 1], md5key)
  }

  // ----- Reference definition of one merged entry -----

  /** The normalized receivers of `rs` that are merged under key `k`, in input order. */
  function Keyed(rs: seq<Receiver>, md5key: Wechat -> Option<string>, k: string): (ws: seq<Wechat>)
    ensures forall i :: 0 <= i < |ws| ==> ws[i].config.Some?
  {
    if |rs| == 0 then []
    else
      var r := rs[|rs| - 1];
      Keyed(rs[..|rs| - 1], md5key, k) + (if KeyOf(r, md5key) == Some(k) then [Usable(r).value] else [])
  }

  /** The non-empty values of field `f` among `ws`, in order. */
  function NonEmpty(ws: seq<Wechat>, f: Field): (vs: seq<string>)
    ensures forall i :: 0 <= i < |vs| ==> |vs[i]| > 0
  {
    if |ws| == 0 then []
    else
      var v := Get(ws[|ws| - 1], f);
      NonEmpty(ws[..|ws| - 1], f) + (if |v| > 0 then [v] else [])
  }

  /** What one merged entry should be: the first receiver's clone with every destination joined. */
  function Expected(ws: seq<Wechat>): Wechat
    requires |ws| > 0
  {
    Clone(ws[0]).(toUser := Join(NonEmpty(ws, User)),
                  toParty := Join(NonEmpty(ws, Party)),
                  toTag := Join(NonEmpty(ws, Tag)))
  }

  /** No destination string of any usable receiver begins with '|'. */
  predicate PlainDests(rs: seq<Receiver>)
  {
    forall i, f :: 0 <= i < |rs| && Usable(rs[i]).Some? ==> NoLeadingBar(Get(Usable(rs[i]).value, f))
  }

  /** No destination string of any of `ws` begins with '|'. */
  predicate PlainAll(ws: seq<Wechat>)
  {
    forall i, f :: 0 <= i < |ws| ==> NoLeadingBar(Get(ws[i], f))
  }

  /** `NonEmpty` over a list with one more receiver. */
  lemma NonEmptySnoc(ws: seq<Wechat>, w: Wechat, f: Field)
    ensures NonEmpty(ws + [w], f) == NonEmpty(ws, f) + (if |Get(w, f)| > 0 then [Get(w, f)] else [])
  {
    assert (ws + [w])[..|ws|] == ws;
  }

  /** The values kept by `NonEmpty` do not begin with '|' when no value of the list does. */
  lemma {:induction false} NonEmptyPlain(ws: seq<Wechat>, f: Field)
    requires PlainAll(ws)
    ensures forall i :: 0 <= i < |NonEmpty(ws, f)| ==> NoLeadingBar(NonEmpty(ws, f)[i])
  {
    if |ws| > 0 {
      NonEmptyPlain(ws[..|ws| - 1], f);
    }
  }

  /** Appending to a joined list that does not begin with '|' is never trimmed. */
  lemma AppendToJoin(vs: seq<string>, v: string)
    requires forall i :: 0 <= i < |vs| ==> |vs[i]| > 0 && NoLeadingBar(vs[i])
    ensures AppendDest(Join(vs), v) == Join(vs + (if |v| > 0 then [v] else []))
  {
    JoinNoLeadingBar(vs);
    if |v| > 0 {
      if |vs| == 0 {
        assert vs + [v] == [v];
        assert ("" + "|" + v)[1..] == v;
      } else {
        JoinSnoc(vs, v);
        assert (Join(vs) + "|" + v)[0] == Join(vs)[0];
      }
    } else {
      assert vs + [] == vs;
    }
  }

  /** One destination update extends the join by the receiver's value, if it has one. */
  lemma AppendJoin(ws: seq<Wechat>, w: Wechat, f: Field)
    requires PlainAll(ws)
    ensures AppendDest(Join(NonEmpty(ws, f)), Get(w, f)) == Join(NonEmpty(ws + [w], f))
  {
    NonEmptySnoc(ws, w, f);
    NonEmptyPlain(ws, f);
    AppendToJoin(NonEmpty(ws, f), Get(w, f));
  }

  /** Merging one more receiver into an existing entry gives the entry expected for the longer list. */
  lemma UpdateEntry(ws: seq<Wechat>, nw: Wechat)
    requires |ws| > 0 && PlainAll(ws)
    ensures Updated(Expected(ws), nw) == Expected(ws + [nw])
  {
    assert (ws + [nw])[0] == ws[0];
    AppendJoin(ws, nw, User);
    AppendJoin(ws, nw, Party);
    AppendJoin(ws, nw, Tag);
  }

  /** The first receiver under a key gives its clone with its own destinations. */
  lemma FirstEntry(nw: Wechat)
    ensures Updated(Clone(nw), nw) == Expected([nw])
  {
    assert [] + [nw] == [nw];
    AppendJoin([], nw, User);
    AppendJoin([], nw, Party);
    AppendJoin([], nw, Tag);
  }

  /** The list prefix without its last element. */
  lemma InitElements(rs: seq<Receiver>)
    requires |rs| > 0
    ensures forall i :: 0 <= i < |rs| - 1 ==> rs[..|rs| - 1][i] == rs[i]
  {
  }

  /** Every receiver collected under a key comes from the list, so it inherits `PlainDests`. */
  lemma {:induction false} KeyedPlain(rs: seq<Receiver>, md5key: Wechat -> Option<string>, k: string)
    requires PlainDests(rs)
    ensures PlainAll(Keyed(rs, md5key, k))
  {
    if |rs| > 0 {
      var init := rs[..|rs| - 1];
      InitElements(rs);
      assert PlainDests(init);
      KeyedPlain(init, md5key, k);
    }
  }

  /** The map has exactly the keys of the usable receivers whose key computation succeeded. */
  lemma {:induction false} MergedKeys(rs: seq<Receiver>, md5key: Wechat -> Option<string>, k: string)
    ensures k in Merged(rs, md5key) <==> |Keyed(rs, md5key, k)| > 0
  {
    if |rs| > 0 {
      MergedKeys(rs[..|rs| - 1], md5key, k);
    }
  }

  /**
   * Receivers that share a key become one entry: when no destination begins
   * with '|', it is the first such receiver's clone with its three
   * destinations '|'-joined, in input order, over the non-empty values of all
   * receivers with that key.
   */
  lemma {:induction false} MergedEntry(rs: seq<Receiver>, md5key: Wechat -> Option<string>, k: string)
    requires PlainDests(rs)
    requires k in Merged(rs, md5key)
    ensures |Keyed(rs, md5key, k)| > 0
    ensures Merged(rs, md5key)[k] == Expected(Keyed(rs, md5key, k))
  {
    MergedKeys(rs, md5key, k);
    var init := rs[..|rs| - 1];
    var r := rs[|rs| - 1];
    var m := Merged(init, md5key);
    var ws := Keyed(init, md5key, k);
    assert Merged(rs, md5key) == MergeStep(m, r, md5key);
    InitElements(rs);
    assert PlainDests(init);
    MergedKeys(init, md5key, k);
    if KeyOf(r, md5key) == Some(k) {
      var nw := Usable(r).value;
      assert Keyed(rs, md5key, k) == ws + [nw];
      if k in m {
        MergedEntry(init, md5key, k);
        KeyedPlain(init, md5key, k);
        assert MergeStep(m, r, md5key)[k] == Updated(m[k], nw);
        UpdateEntry(ws, nw);
      } else {
        assert ws == [];
        assert ws + [nw] == [nw];
        assert MergeStep(m, r, md5key)[k] == Updated(Clone(nw), nw);
        FirstEntry(nw);
      }
    } else {
      assert Keyed(rs, md5key, k) == ws;
      MergedEntry(init, md5key, k);
    }
  }

  /** Receivers with empty destination strings contribute nothing to the merged destinations. */
  lemma EmptyContributesNothing(ws: seq<Wechat>, w: Wechat, f: Field)
    requires Get(w, f) == ""
    ensures NonEmpty(ws + [w], f) == NonEmpty(ws, f)
  {
    NonEmptySnoc(ws, w, f);
  }

  /**
   * Without `PlainDests` the entry can differ from the join: a receiver with
   * users "|a" followed by one with no users, under the same key, leaves "a",
   * because the trim is applied again after the second receiver.
   */
  lemma LeadingBarRetrimmed()
    ensures var cfg := WechatConfig(DefaultApiURL, "corp", "agent", "secret");
            var rs := [WechatReceiver(Wechat("", Some(cfg), "|a", "", "")), WechatReceiver(Wechat("", Some(cfg), "", "", ""))];
            var md5key := (w: Wechat) => Some("k");
            Merged(rs, md5key)["k"].toUser == "a" && Join(NonEmpty(Keyed(rs, md5key, "k"), User)) == "|a"
  {
    var cfg := WechatConfig(DefaultApiURL, "corp", "agent", "secret");
    var w1 := Wechat("", Some(cfg), "|a", "", "");
    var w2 := Wechat("", Some(cfg), "", "", "");
    var rs := [WechatReceiver(w1), WechatReceiver(w2)];
    var md5key := (w: Wechat) => Some("k");
    assert rs[..1] == [WechatReceiver(w1)];
    assert [WechatReceiver(w1)][..0] == [];
    assert ("" + "|" + "|a")[1..] == "|a";
    assert AppendDest("", "|a") == "|a";
    assert Normalize(w1) == w1;
    assert Usable(WechatReceiver(w1)) == Some(w1);
    assert md5key(Clone(w1)) == Some("k");
    assert Merged([WechatReceiver(w1)][..0], md5key) == map[];
    var m1 := Merged(rs[..1], md5key);
    assert m1 == MergeStep(map[], WechatReceiver(w1), md5key);
    assert m1 == map["k" := Updated(Clone(w1), w1)];
    assert ("|a")[1..] == "a";
    assert AppendDest("|a", "") == "a";
    var ws := Keyed(rs, md5key, "k");
    assert Keyed(rs[..1], md5key, "k") == [w1];
    assert ws == [w1, w2];
    NonEmptySnoc([], w1, User);
    assert [] + [w1] == [w1];
    NonEmptySnoc([w1], w2, User);
    assert [w1] + [w2] == [w1, w2];
  }

  // ----- The loop body, as the source writes it -----

  /** The body of the merge loop: fold receiver `r` into map `m`, or skip it. */
  method MergeReceiver(m: map<string, Wechat>, r: Receiver, md5key: Wechat -> Option<string>)
    returns (m': map<string, Wechat>)
    ensures m' == MergeStep(m, r, md5key)
  {
    m' := m;
    if !r.WechatReceiver? {
      return;
    }
    var receiver := r.wechat;
    if receiver.config.None? {
      return;
    }
    if |receiver.config.value.apiUrl| == 0 {
      receiver := receiver.(config := Some(receiver.config.value.(apiUrl := DefaultApiURL)));
    }
    var c := Clone(receiver);
    var key := md5key(c);
    assert receiver == Usable(r).value;
    if key.None? {
      return;
    }
    var w := if key.value in m then m[key.value] else c;
    var toUser := AppendTo(w.toUser, receiver.toUser);
    var toTag := AppendTo(w.toTag, receiver.toTag);
    var toParty := AppendTo(w.toParty, receiver.toParty);
    m' := m[key.value := w.(toUser := toUser, toTag := toTag, toParty := toParty)];
  }

  /** One destination update of the loop body: append "|" and `v` when `v` is non-empty, then trim one leading '|'. */
  method AppendTo(prev: string, v: string) returns (s: string)
    ensures s == AppendDest(prev, v)
  {
    s := prev;
    if |v| > 0 {
      s := s + "|" + v;
    }
    s := TrimBar(s);
  }
}
