/** The deterministic side of example 14's policy: how a message is read as text,
    the decision cache key, the keyword fallbacks used when the language model gives
    no usable answer, the status-message fallback table and the dashboard rows. The
    model's reply is an arbitrary input string. */
module Heuristics {
  import opened Text
  import opened Values
  import opened Flow
  import Sync

  // ---------------------------------------------------------------------------
  // Reading a message

  /** `_msg_text`: a dict's "message" when it is a string, its JSON text otherwise;
      anything that is not a dict is printed. */
  function MsgText(msg: Value): (r: string)
    ensures msg.Dict? && "message" in msg.fields && msg.fields["message"].Str? ==> r == msg.fields["message"].s
    ensures msg.Dict? && "message" !in msg.fields ==> r == ""
    ensures msg.Str? ==> r == msg.s
    ensures msg.Dict? && "message" in msg.fields && !msg.fields["message"].Str? ==> r == Dumps(msg.fields["message"])
    ensures !msg.Dict? ==> r == PyStr(msg)
  {
    if msg.Dict? then
      var v := Get(msg.fields, "message", Str(""));
      if v.Str? then v.s else Dumps(v)
    else PyStr(msg)
  }

  /** A boolean "message" is read as its JSON text `true`, the same text as the string
      "true", so the two messages share a cache slot. */
  lemma BooleanMessageText(kind: string, from: Value)
    ensures MsgText(Dict(map["message" := PyTrue])) == "true"
    ensures CacheKey(kind, map["from" := from, "message" := PyTrue])
         == CacheKey(kind, map["from" := from, "message" := Str("true")])
  {
    var m1 := map["from" := from, "message" := PyTrue];
    var m2 := map["from" := from, "message" := Str("true")];
    assert m1["message"] == PyTrue && m2["message"] == Str("true");
    assert MsgText(Dict(m1)) == "true" == MsgText(Dict(m2));
  }

  /** `_cache_key`: the kind, the sender as text and the message text, joined by "|". */
  function CacheKey(kind: string, msg: map<string, Value>): (r: string)
    ensures StartsWith(r, kind + "|")
    ensures |r| == |kind| + |PyStr(Get(msg, "from", Str("")))| + |MsgText(Dict(msg))| + 2
    ensures r[|kind| + 1..|kind| + 1 + |PyStr(Get(msg, "from", Str("")))|] == PyStr(Get(msg, "from", Str("")))
    ensures r[|kind| + 1 + |PyStr(Get(msg, "from", Str("")))|] == '|'
    ensures r[|r| - |MsgText(Dict(msg))|..] == MsgText(Dict(msg))
  {
    var f := PyStr(Get(msg, "from", Str("")));
    var t := MsgText(Dict(msg));
    var r := kind + "|" + f + "|" + t;
    assert r[..|kind| + 1] == kind + "|";
    assert r[|kind| + 1..|kind| + 1 + |f|] == f;
    assert r[|r| - |t|..] == t;
    r
  }

  predicate NoBar(s: string) {
    forall i :: 0 <= i < |s| ==> s[i] != '|'
  }

  /** A "|" right after a bar-free `a` cannot line up with a longer bar-free `c`. */
  lemma BarMarksEnd(a: string, b: string, c: string, d: string)
    requires NoBar(c) && |a| < |c|
    ensures a + "|" + b != c + "|" + d
  {
    assert (a + "|" + b)[|a|] == '|';
    assert (c + "|" + d)[|a|] == c[|a|];
  }

  lemma {:induction false} SplitAtBar(a: string, b: string, c: string, d: string)
    requires NoBar(a) && NoBar(c) && a + "|" + b == c + "|" + d
    ensures a == c && b == d
  {
    var x := a + "|" + b;
    if |a| < |c| {
      BarMarksEnd(a, b, c, d);
    } else if |c| < |a| {
      BarMarksEnd(c, d, a, b);
    } else {
      assert a == x[..|a|] == c;
      assert b == x[|a| + 1..] == d;
    }
  }

  /** Two decisions share a cache slot only if they have the same kind, sender and
      text, as long as kinds and senders contain no "|". The kinds and the ids the
      agents sign with contain none, but the prefix test also admits a sender such
      as "ChangeMe_Agent_6|a", whose key with text "b" equals that of sender
      "ChangeMe_Agent_6" with text "a|b"; Python's `_cache_key` collides the same
      way. */
  lemma CacheKeyInjective(k1: string, m1: map<string, Value>, k2: string, m2: map<string, Value>)
    requires NoBar(k1) && NoBar(k2)
    requires NoBar(PyStr(Get(m1, "from", Str("")))) && NoBar(PyStr(Get(m2, "from", Str(""))))
    requires CacheKey(k1, m1) == CacheKey(k2, m2)
    ensures k1 == k2
    ensures PyStr(Get(m1, "from", Str(""))) == PyStr(Get(m2, "from", Str("")))
    ensures MsgText(Dict(m1)) == MsgText(Dict(m2))
  {
    BarSeparated(k1, PyStr(Get(m1, "from", Str(""))), MsgText(Dict(m1)),
                 k2, PyStr(Get(m2, "from", Str(""))), MsgText(Dict(m2)));
  }

  /** Three fields joined by "|" are recovered from the joined text when the first two
      are bar-free. */
  lemma BarSeparated(k1: string, f1: string, t1: string, k2: string, f2: string, t2: string)
    requires NoBar(k1) && NoBar(k2) && NoBar(f1) && NoBar(f2)
    requires k1 + "|" + f1 + "|" + t1 == k2 + "|" + f2 + "|" + t2
    ensures k1 == k2 && f1 == f2 && t1 == t2
  {
    assert k1 + "|" + f1 + "|" + t1 == k1 + "|" + (f1 + "|" + t1);
    assert k2 + "|" + f2 + "|" + t2 == k2 + "|" + (f2 + "|" + t2);
    SplitAtBar(k1, f1 + "|" + t1, k2, f2 + "|" + t2);
    SplitAtBar(f1, t1, f2, t2);
  }

  // ---------------------------------------------------------------------------
  // The keyword score behind `_fallback_move_decision`

  const Positive: seq<string> :=
    ["hello", "hi", "hey", "contact", "collab", "cooperate", "ally", "friend", "like", "good", "help"]
  const Negative: seq<string> :=
    ["ban", "banned", "block", "hate", "enemy", "bad", "don't like", "dont like", "go away", "shut up"]

  /** How many of the words occur in the text: none exactly when no word occurs. */
  function CountIn(words: seq<string>, t: string): (r: nat)
    ensures r <= |words|
    ensures r == 0 <==> !AnyIn(words, t)
    decreases |words|
  {
    if words == [] then 0
    else
      var n := |words| - 1;
      AnyInSnoc(words, t);
      CountIn(words[..n], t) + (if Contains(t, words[n]) then 1 else 0)
  }

  /** A word of a non-empty list occurs when one of the earlier words or the last
      one does. */
  lemma AnyInSnoc(words: seq<string>, t: string)
    requires words != []
    ensures AnyIn(words, t) <==> AnyIn(words[..|words| - 1], t) || Contains(t, words[|words| - 1])
  {
    var n := |words| - 1;
    if AnyIn(words, t) {
      var i :| 0 <= i < |words| && Contains(t, words[i]);
      if i < n {
        assert words[..n][i] == words[i];
      }
    }
    if AnyIn(words[..n], t) {
      var i :| 0 <= i < n && Contains(t, words[..n][i]);
      assert words[i] == words[..n][i];
    }
  }

  /** One point per positive word present, minus two per negative word present: a
      positive score needs a positive word, a negative one a negative word, and a
      text with neither scores zero. */
  function Score(t: string): (r: int)
    ensures r >= 1 ==> AnyIn(Positive, t)
    ensures r <= -1 ==> AnyIn(Negative, t)
    ensures !AnyIn(Positive, t) && !AnyIn(Negative, t) ==> r == 0
  {
    CountIn(Positive, t) - 2 * CountIn(Negative, t)
  }

  lemma ScoreBounds(t: string)
    ensures -2 * |Negative| <= Score(t) <= |Positive|
  {
  }

  /** The decision kinds (each edge's `Kind`) that move on a positive reading, and
      those that move on a negative one. */
  predicate Approach(e: Edge) {
    e == RegisterToContact || e == ContactToFriend || e == GoodToVeryGood || e == NeutralToGood
  }

  predicate Avoid(e: Edge) {
    e == RegisterToBan || e == NeutralToBad
  }

  /** The decision table of `_fallback_move_decision` for the kind of edge `e`. */
  function MoveVerdict(e: Edge, score: int): (r: string)
    ensures r == "move" || r == "stay"
    ensures Approach(e) ==> (r == "move" <==> score >= 1)
    ensures Avoid(e) ==> (r == "move" <==> score <= -1)
  {
    if e == RegisterToContact || e == ContactToFriend || e == GoodToVeryGood then
      (if score >= 1 then "move" else "stay")
    else if e == RegisterToBan || e == NeutralToBad then
      (if score <= -1 then "move" else "stay")
    else
      (if score >= 1 then "move" else "stay")
  }

  /** `_fallback_move_decision`, as a value: an approaching edge moves only on a
      friendly word and an avoiding edge only on a hostile word, and a message with
      neither stays. */
  function FallbackMove(e: Edge, msg: map<string, Value>): (r: string)
    ensures r == "move" || r == "stay"
    ensures Approach(e) ==> (r == "move" <==> Score(Lower(MsgText(Dict(msg)))) >= 1)
    ensures Avoid(e) ==> (r == "move" <==> Score(Lower(MsgText(Dict(msg)))) <= -1)
    ensures Approach(e) && r == "move" ==> AnyIn(Positive, Lower(MsgText(Dict(msg))))
    ensures Avoid(e) && r == "move" ==> AnyIn(Negative, Lower(MsgText(Dict(msg))))
    ensures !AnyIn(Positive, Lower(MsgText(Dict(msg)))) && !AnyIn(Negative, Lower(MsgText(Dict(msg)))) ==> r == "stay"
  {
    MoveVerdict(e, Score(Lower(MsgText(Dict(msg)))))
  }

  /** `_fallback_move_decision`: the two scoring loops, then the decision table. */
  method FallbackMoveDecision(e: Edge, msg: map<string, Value>) returns (r: string)
    ensures r == FallbackMove(e, msg)
    ensures r == "move" || r == "stay"
  {
    var score := KeywordScore(Lower(MsgText(Dict(msg))));
    if e == RegisterToContact || e == ContactToFriend || e == GoodToVeryGood {
      r := if score >= 1 then "move" else "stay";
    } else if e == RegisterToBan || e == NeutralToBad {
      r := if score <= -1 then "move" else "stay";
    } else {
      r := if score >= 1 then "move" else "stay";
    }
  }

  /** The two scoring loops of `_fallback_move_decision`. */
  method KeywordScore(t: string) returns (score: int)
    ensures score == Score(t)
  {
    score := 0;
    var i := 0;
    while i < |Positive|
      invariant 0 <= i <= |Positive|
      invariant score == CountIn(Positive[..i], t)
    {
      assert Positive[..i + 1][..i] == Positive[..i];
      if Contains(t, Positive[i]) {
        score := score + 1;
      }
      i := i + 1;
    }
    assert Positive[..|Positive|] == Positive;
    var j := 0;
    while j < |Negative|
      invariant 0 <= j <= |Negative|
      invariant score == CountIn(Positive, t) - 2 * CountIn(Negative[..j], t)
    {
      assert Negative[..j + 1][..j] == Negative[..j];
      if Contains(t, Negative[j]) {
        score := score - 2;
      }
      j := j + 1;
    }
    assert Negative[..|Negative|] == Negative;
  }

  /** A contact and a ban are never both decided on the same message, nor a good and
      a bad verdict. */
  lemma OpposedKindsExclusive(msg: map<string, Value>)
    ensures !(FallbackMove(RegisterToContact, msg) == "move" && FallbackMove(RegisterToBan, msg) == "move")
    ensures !(FallbackMove(NeutralToGood, msg) == "move" && FallbackMove(NeutralToBad, msg) == "move")
  {
  }

  // ---------------------------------------------------------------------------
  // The keyword flag behind `_fallback_flag`

  const BadWords: seq<string> := ["ban", "banned", "block", "hate", "don't like", "dont like", "enemy"]
  const GoodWords: seq<string> := ["friend", "contact", "ally", "like", "good", "welcome"]

  predicate AnyIn(words: seq<string>, t: string) {
    exists i :: 0 <= i < |words| && Contains(t, words[i])
  }

  /** `_fallback_flag`: "bad" as soon as a bad word occurs, whatever else occurs;
      otherwise "good" if a good word occurs, else "neutral". */
  function FallbackFlag(msg: map<string, Value>): (r: string)
    ensures r == "bad" <==> AnyIn(BadWords, Lower(MsgText(Dict(msg))))
    ensures r == "good" <==> !AnyIn(BadWords, Lower(MsgText(Dict(msg)))) && AnyIn(GoodWords, Lower(MsgText(Dict(msg))))
    ensures r == "neutral" <==> !AnyIn(BadWords, Lower(MsgText(Dict(msg)))) && !AnyIn(GoodWords, Lower(MsgText(Dict(msg))))
  {
    var t := Lower(MsgText(Dict(msg)));
    if AnyIn(BadWords, t) then "bad"
    else if AnyIn(GoodWords, t) then "good"
    else "neutral"
  }

  // ---------------------------------------------------------------------------
  // Reading the model's reply

  /** `reply.strip().lower()`: no longer than the reply, empty exactly when the reply
      is all white space, and free of upper-case ASCII letters. */
  function Token(reply: string): (r: string)
    ensures |r| <= |reply|
    ensures r == [] <==> AllSpace(reply)
    ensures forall i :: 0 <= i < |r| ==> !('A' <= r[i] <= 'Z')
  {
    StripEmpty(reply);
    Lower(Strip(reply))
  }

  /** `infer_flag_from_msg`: the model's token when flags come from the model and the
      token is one of the three, the keyword flag otherwise. */
  function InferFlag(useLlm: bool, msg: map<string, Value>, reply: string): (r: string)
    ensures r == "good" || r == "bad" || r == "neutral"
    ensures !useLlm ==> r == FallbackFlag(msg)
    ensures useLlm && (Token(reply) == "good" || Token(reply) == "bad" || Token(reply) == "neutral") ==> r == Token(reply)
    ensures useLlm && Token(reply) != "good" && Token(reply) != "bad" && Token(reply) != "neutral" ==> r == FallbackFlag(msg)
  {
    if !useLlm then FallbackFlag(msg)
    else
      var txt := Token(reply);
      if txt == "good" || txt == "bad" || txt == "neutral" then txt else FallbackFlag(msg)
  }

  /** The decision `decide_move` makes when its key is not cached yet: the model's
      token if it is "move" or "stay", the keyword fallback otherwise. */
  function FreshDecision(e: Edge, msg: map<string, Value>, reply: string): (r: string)
    ensures r == "move" || r == "stay"
    ensures Token(reply) == "move" || Token(reply) == "stay" ==> r == Token(reply)
    ensures Token(reply) != "move" && Token(reply) != "stay" ==> r == FallbackMove(e, msg)
  {
    var txt := Token(reply);
    if txt == "move" || txt == "stay" then txt else FallbackMove(e, msg)
  }

  /** The `kind` argument of `generate_status_message`: "contact", "ban", "friend",
      "good_flag", "bad_flag", or any other string. `OtherKind` stands only for a
      name outside those five; `KindOf` reads a name that way. */
  datatype StatusKind = ContactKind | BanKind | FriendKind | GoodFlag | BadFlag | OtherKind(name: string)

  /** The kind a `kind` string names: one of the five known kinds, or `OtherKind`
      for any other string. */
  function KindOf(name: string): (k: StatusKind)
    ensures k.OtherKind? <==> name != "contact" && name != "ban" && name != "friend"
                              && name != "good_flag" && name != "bad_flag"
    ensures k.OtherKind? ==> k.name == name
    ensures k == ContactKind <==> name == "contact"
    ensures k == BanKind <==> name == "ban"
    ensures k == FriendKind <==> name == "friend"
    ensures k == GoodFlag <==> name == "good_flag"
    ensures k == BadFlag <==> name == "bad_flag"
  {
    if name == "contact" then ContactKind
    else if name == "ban" then BanKind
    else if name == "friend" then FriendKind
    else if name == "good_flag" then GoodFlag
    else if name == "bad_flag" then BadFlag
    else OtherKind(name)
  }

  /** `generate_status_message`: the model's stripped reply if non-empty, the fixed
      text for the kind otherwise. */
  function StatusMessage(kind: StatusKind, reply: string): (r: string)
    ensures |r| > 0
    ensures Strip(reply) != [] ==> r == Strip(reply)
    ensures Strip(reply) == [] ==> r == FixedText(kind)
  {
    var txt := Strip(reply);
    if txt != [] then txt else FixedText(kind)
  }

  /** The fixed text `generate_status_message` falls back on for each kind. */
  function FixedText(kind: StatusKind): (r: string)
    ensures |r| > 0
  {
    match kind
    case ContactKind => ContactText
    case BanKind => BanText
    case FriendKind => FriendText
    case GoodFlag => GoodFlagText
    case BadFlag => BadFlagText
    case OtherKind(_) => "Acknowledged."
  }

  const ContactText: string := "I am keeping you as a contact because you seem constructive relative to my goal."
  const BanText: string := "I am banning you because your message conflicts with my goal and adds risk."
  const FriendText: string := "I am treating you as a friend because your behavior aligns with my goal and you seem reliable."
  const GoodFlagText: string := "I like your direction. Stay constructive and we will cooperate."
  const BadFlagText: string := "I do not like your direction. Back off or expect resistance."

  // ---------------------------------------------------------------------------
  // Dashboard rows

  /** One dashboard row; `lastSeenAgo` is whole seconds since the peer was last seen. */
  datatype Row = Row(agent: string, toMe: string, toThem: string, lastSeenAgo: Option<int>, lastMessage: string)

  /** The ids the dashboard lists: every peer in either view or seen by `validate`. */
  function DashboardIds(v: Sync.Views, lastSeen: map<string, int>): set<string> {
    v.toMe.Keys + v.toThem.Keys + lastSeen.Keys
  }

  function RowFor(id: string, v: Sync.Views, lastSeen: map<string, int>, lastMessage: map<string, string>, now: int): Row {
    Row(id, Sync.Lookup(v.toMe, id), Sync.Lookup(v.toThem, id),
        if id in lastSeen then Some(now - lastSeen[id]) else None,
        Sync.Lookup(lastMessage, id))
  }

  /** One row per id, in the order given. */
  function RowsOf(ids: seq<string>, v: Sync.Views, lastSeen: map<string, int>, lastMessage: map<string, string>, now: int): (r: seq<Row>)
    ensures |r| == |ids|
    ensures forall i :: 0 <= i < |ids| ==> r[i] == RowFor(ids[i], v, lastSeen, lastMessage, now)
  {
    seq(|ids|, i requires 0 <= i < |ids| => RowFor(ids[i], v, lastSeen, lastMessage, now))
  }

  /** Appending an id appends its row. */
  lemma RowsOfSnoc(ids: seq<string>, id: string, v: Sync.Views, lastSeen: map<string, int>, lastMessage: map<string, string>, now: int)
    ensures RowsOf(ids + [id], v, lastSeen, lastMessage, now) == RowsOf(ids, v, lastSeen, lastMessage, now) + [RowFor(id, v, lastSeen, lastMessage, now)]
  {
    var a := RowsOf(ids + [id], v, lastSeen, lastMessage, now);
    var b := RowsOf(ids, v, lastSeen, lastMessage, now) + [RowFor(id, v, lastSeen, lastMessage, now)];
    assert |a| == |b|;
    forall i | 0 <= i < |a| ensures a[i] == b[i] {
      if i < |ids| { assert (ids + [id])[i] == ids[i]; }
    }
  }

  /** The rows of `_refresh_dashboard_snapshot`: one per id, in ascending id order. */
  function Rows(v: Sync.Views, lastSeen: map<string, int>, lastMessage: map<string, string>, now: int): (r: seq<Row>)
    ensures |r| == |DashboardIds(v, lastSeen)|
    ensures forall i :: 0 <= i < |r| ==> r[i].agent in DashboardIds(v, lastSeen)
                                         && r[i] == RowFor(r[i].agent, v, lastSeen, lastMessage, now)
    ensures forall i, j :: 0 <= i < j < |r| ==> Below(r[i].agent, r[j].agent)
  {
    var ids := Sorted(DashboardIds(v, lastSeen));
    RowsOf(ids, v, lastSeen, lastMessage, now)
  }

  /** Every listed id has a row. */
  lemma EveryIdHasRow(v: Sync.Views, lastSeen: map<string, int>, lastMessage: map<string, string>, now: int, id: string)
    requires id in DashboardIds(v, lastSeen)
    ensures exists i :: 0 <= i < |Rows(v, lastSeen, lastMessage, now)| && Rows(v, lastSeen, lastMessage, now)[i].agent == id
  {
    var ids := Sorted(DashboardIds(v, lastSeen));
    var rows := RowsOf(ids, v, lastSeen, lastMessage, now);
    assert rows == Rows(v, lastSeen, lastMessage, now);
    assert id in ids;
    var i :| 0 <= i < |ids| && ids[i] == id;
    assert rows[i] == RowFor(id, v, lastSeen, lastMessage, now);
  }

  /** A peer's row shows its two states and its last message exactly as the maps
      hold them, "" when absent. */
  lemma RowShowsViews(v: Sync.Views, lastSeen: map<string, int>, lastMessage: map<string, string>, now: int, i: nat)
    requires i < |Rows(v, lastSeen, lastMessage, now)|
    ensures var row := Rows(v, lastSeen, lastMessage, now)[i];
            (row.agent in v.toMe ==> row.toMe == v.toMe[row.agent])
            && (row.agent !in v.toMe ==> row.toMe == "")
            && (row.agent in v.toThem ==> row.toThem == v.toThem[row.agent])
            && (row.agent !in v.toThem ==> row.toThem == "")
            && (row.lastSeenAgo.Some? <==> row.agent in lastSeen)
            && row.lastMessage == Sync.Lookup(lastMessage, row.agent)
  {
  }
}
