/** Example 14: example 13's protocol with its fixed phrases replaced by a policy.
    Each decision edge asks `decide_move` (cached per kind, sender and text), the
    peer's-view edges ask `infer_flag_from_msg`, the senders' texts come from
    `generate_status_message`, and `validate` records when each sender was last seen
    for a dashboard. The language model's replies, the clock and the broadcast text
    are inputs. */
module Example14 {
  import opened Text
  import opened Values
  import opened Flow
  import opened Hooks
  import opened Sync
  import opened Outbox
  import opened Heuristics

  // ---------------------------------------------------------------------------
  // The decision cache

  /** Every cached decision is "move" or "stay". */
  predicate MoveOrStay(cache: map<string, string>) {
    forall k :: k in cache ==> cache[k] == "move" || cache[k] == "stay"
  }

  /** `decide_move` on values, for the decision kind of edge `e`: a cached key
      answers from the cache whatever the model replies; a new key is decided from the
      reply (or the keyword fallback) and the decision is cached. Existing entries are
      never overwritten. */
  function Decide(cache: map<string, string>, e: Edge, msg: map<string, Value>, reply: string)
    : (r: (string, map<string, string>))
    ensures r.1.Keys == cache.Keys + {CacheKey(Kind(e), msg)}
    ensures r.1[CacheKey(Kind(e), msg)] == r.0
    ensures forall k :: k in cache ==> r.1[k] == cache[k]
    ensures CacheKey(Kind(e), msg) !in cache ==> r.0 == FreshDecision(e, msg, reply)
    ensures MoveOrStay(cache) ==> MoveOrStay(r.1) && (r.0 == "move" || r.0 == "stay")
  {
    Remember(cache, CacheKey(Kind(e), msg), FreshDecision(e, msg, reply))
  }

  /** The uncached path of `decide_move`: the model's token if it is "move" or
      "stay", the keyword fallback otherwise. */
  method DecideFresh(e: Edge, msg: map<string, Value>, reply: string) returns (txt: string)
    ensures txt == FreshDecision(e, msg, reply)
  {
    txt := Token(reply);
    if txt != "move" && txt != "stay" {
      txt := FallbackMoveDecision(e, msg);
    }
  }

  /** The cache lookup of `decide_move` for one key: the cached entry when there is
      one, otherwise `decided`, which is then cached. */
  function Remember(cache: map<string, string>, key: string, decided: string): (r: (string, map<string, string>))
    ensures r.1.Keys == cache.Keys + {key}
    ensures r.1[key] == r.0
    ensures forall k :: k in cache ==> r.1[k] == cache[k]
    ensures key !in cache ==> r.0 == decided
  {
    if key in cache then (cache[key], cache) else (decided, cache[key := decided])
  }

  /** Once a kind, sender and text have been decided, the decision never changes:
      a later call with any reply returns it and leaves the cache as it is. */
  lemma DecisionSticky(cache: map<string, string>, e: Edge, msg: map<string, Value>, reply1: string, reply2: string)
    ensures var (d, c) := Decide(cache, e, msg, reply1);
            Decide(c, e, msg, reply2) == (d, c)
  {
    var (d, c) := Decide(cache, e, msg, reply1);
    assert CacheKey(Kind(e), msg) in c;
  }

  // ---------------------------------------------------------------------------
  // What the senders say

  /** The kind `reputation` asks `generate_status_message` for. */
  function FlagKind(s: Status): StatusKind {
    match s
    case Good => GoodFlag
    case Bad => BadFlag
  }

  /** The kind each MOVE-gated sender asks for. */
  function DrainKind(e: Edge): StatusKind
    requires OwnEdge(e)
  {
    match e
    case RegisterToContact => ContactKind
    case RegisterToBan => BanKind
    case ContactToFriend => FriendKind
  }

  /** The reputation messages for the recorded verdicts, given the model's reply for
      each: one per verdict, in order. */
  function StatusReports(verdicts: seq<Verdict>, replies: seq<string>): (r: seq<Value>)
    requires |replies| == |verdicts|
    ensures |r| == |verdicts|
    decreases |verdicts|
  {
    if verdicts == [] then []
    else
      var n := |verdicts| - 1;
      StatusReports(verdicts[..n], replies[..n]) + [Report(verdicts[n], replies[n])]
  }

  /** The `i`th reputation message reports the `i`th verdict with the `i`th reply. */
  lemma {:induction false} StatusReportsAt(verdicts: seq<Verdict>, replies: seq<string>, i: nat)
    requires |replies| == |verdicts| && i < |verdicts|
    ensures StatusReports(verdicts, replies)[i] == Report(verdicts[i], replies[i])
    decreases |verdicts|
  {
    var n := |verdicts| - 1;
    if i < n {
      StatusReportsAt(verdicts[..n], replies[..n], i);
    }
  }

  /** Each reputation message is addressed to its verdict's peer and is never empty;
      when the model's reply is blank it is the fixed text for the verdict. */
  lemma StatusReportsShape(verdicts: seq<Verdict>, replies: seq<string>, i: nat)
    requires |replies| == |verdicts| && i < |verdicts|
    ensures var m := StatusReports(verdicts, replies)[i];
            m.Dict? && m.fields.Keys == {"to", "message"} && m.fields["to"] == verdicts[i].to
            && m.fields["message"].Str? && m.fields["message"].s != []
            && (Strip(replies[i]) == [] ==> m.fields["message"] == Str(StatusMessage(FlagKind(verdicts[i].status), "")))
  {
    StatusReportsAt(verdicts, replies, i);
  }

  /** One reputation message: the verdict's status text, sent to its peer. The text
      is the stripped reply when there is one, else the verdict's fixed text. */
  function Report(v: Verdict, reply: string): (r: Value)
    ensures r.Dict? && r.fields.Keys == {"to", "message"} && r.fields["to"] == v.to
    ensures r.fields["message"].Str? && r.fields["message"].s != []
    ensures Strip(reply) != [] ==> r.fields["message"] == Str(Strip(reply))
    ensures Strip(reply) == [] ==> r.fields["message"] == Str(FixedText(FlagKind(v.status)))
  {
    Direct(v.to, Str(StatusMessage(FlagKind(v.status), reply)))
  }

  /** The loop of `reputation`: a "good_flag" or "bad_flag" text per verdict, sent
      to the verdict's peer. */
  method BuildReports(verdicts: seq<Verdict>, replies: seq<string>) returns (out: seq<Value>)
    requires |replies| == |verdicts|
    ensures out == StatusReports(verdicts, replies)
  {
    out := [];
    var i := 0;
    while i < |verdicts|
      invariant 0 <= i <= |verdicts|
      invariant out == StatusReports(verdicts[..i], replies[..i])
    {
      assert verdicts[..i + 1][..i] == verdicts[..i] && replies[..i + 1][..i] == replies[..i];
      out := out + [Report(verdicts[i], replies[i])];
      i := i + 1;
    }
    assert verdicts[..i] == verdicts && replies[..i] == replies;
  }

  /** The sender `validate` records: a non-empty string `from`. */
  function SeenSender(content: Value): (r: Option<string>)
    ensures r.Some? <==> content.Dict? && "from" in content.fields
                         && content.fields["from"].Str? && content.fields["from"].s != []
    ensures r.Some? ==> content.fields["from"] == Str(r.value)
  {
    if content.Dict? && "from" in content.fields && content.fields["from"].Str? && content.fields["from"].s != []
    then Some(content.fields["from"].s)
    else None
  }

  /** The random suffix of AGENT_ID, `random.randint(0, 1000)`. */
  type Suffix = n: nat | n <= 1000

  /** The row-building loop of `_refresh_dashboard_snapshot`, over the ids in the
      order given. */
  method BuildRows(ids: seq<string>, v: Views, lastSeen: map<string, int>, lastMessage: map<string, string>, now: int)
    returns (rows: seq<Row>)
    ensures rows == RowsOf(ids, v, lastSeen, lastMessage, now)
  {
    rows := [];
    var i := 0;
    while i < |ids|
      invariant 0 <= i <= |ids|
      invariant rows == RowsOf(ids[..i], v, lastSeen, lastMessage, now)
    {
      var id := ids[i];
      var ago := if id in lastSeen then Some(now - lastSeen[id]) else None;
      var row := Row(id, Lookup(v.toMe, id), Lookup(v.toThem, id), ago, Lookup(lastMessage, id));
      RowsOfSnoc(ids[..i], id, v, lastSeen, lastMessage, now);
      rows := rows + [row];
      assert ids[..i + 1] == ids[..i] + [id];
      i := i + 1;
    }
    assert ids[..|ids|] == ids;
  }

  /** What the dashboard shows: whether the agent listens, and one row per peer. */
  datatype Dashboard = Dashboard(listening: bool, rows: seq<Row>)

  class Agent {
    const suffix: Suffix
    const useLlmFlags: bool
    var listening: bool
    const channels: ChannelTable
    const queues: Queues
    var decisionCache: map<string, string>
    var lastSeen: map<string, int>
    var lastMessage: map<string, string>
    var dashboard: Dashboard

    /** The hooks' configuration for this agent's AGENT_ID. */
    function Cfg(): Config {
      Example14(suffix)
    }

    /** The decision cache only ever holds "move" or "stay". */
    predicate Valid()
      reads this
    {
      MoveOrStay(decisionCache)
    }

    constructor (n: Suffix, useLlmFlags: bool)
      ensures suffix == n && this.useLlmFlags == useLlmFlags
      ensures listening && decisionCache == map[] && lastSeen == map[] && lastMessage == map[]
      ensures dashboard == Dashboard(true, [])
      ensures fresh(channels) && fresh(queues)
      ensures channels.relations == map[] && channels.outsideView == map[]
      ensures queues.contacts == [] && queues.bans == [] && queues.friends == [] && queues.verdicts == []
      ensures Valid()
    {
      suffix := n;
      this.useLlmFlags := useLlmFlags;
      listening := true;
      channels := new ChannelTable();
      queues := new Queues();
      decisionCache := map[];
      lastSeen := map[];
      lastMessage := map[];
      dashboard := Dashboard(true, []);
    }

    // -------------------------------------------------------------------------
    // RECEIVE hooks

    /** `validate`: the hook of example 13, which also records, for content it
        passes, when its sender was last seen and the text it sent. */
    method Validate(env: Value, now: int) returns (r: Option<Value>)
      modifies this`lastSeen, this`lastMessage
      ensures r == Hooks.Validate(Cfg(), listening, env)
      ensures r.Some? && SeenSender(r.value).Some? ==>
                var s := SeenSender(r.value).value;
                lastSeen == old(lastSeen)[s := now] && lastMessage == old(lastMessage)[s := MsgText(r.value)]
      ensures r.None? || SeenSender(r.value).None? ==>
                lastSeen == old(lastSeen) && lastMessage == old(lastMessage)
    {
      r := Hooks.Validate(Cfg(), listening, env);
      if r.Some? && r.value.Dict? {
        match SeenSender(r.value) {
          case Some(s) =>
            lastSeen := lastSeen[s := now];
            lastMessage := lastMessage[s := MsgText(r.value)];
          case None =>
        }
      }
    }

    /** The RECEIVE chain: `validate`, then `check_sender` on what it passed. A sender
        is recorded as seen as soon as `validate` passes its content, even when
        `check_sender` then drops it. */
    method Receive(env: Value, now: int) returns (r: Option<Value>)
      requires EnvelopeSenderIsText(Cfg(), env)
      modifies this`lastSeen, this`lastMessage
      ensures r == Hooks.Receive(Cfg(), listening, env)
      ensures var v := Hooks.Validate(Cfg(), listening, env);
              v.Some? && SeenSender(v.value).Some? ==>
                var s := SeenSender(v.value).value;
                lastSeen == old(lastSeen)[s := now] && lastMessage == old(lastMessage)[s := MsgText(v.value)]
      ensures var v := Hooks.Validate(Cfg(), listening, env);
              v.None? || SeenSender(v.value).None? ==>
                lastSeen == old(lastSeen) && lastMessage == old(lastMessage)
    {
      var content := Validate(env, now);
      match content {
        case None =>
          r := None;
        case Some(c) =>
          r := CheckSender(Cfg(), listening, c);
      }
    }

    // -------------------------------------------------------------------------
    // Decisions

    /** `decide_move`. */
    method DecideMove(e: Edge, msg: map<string, Value>, reply: string) returns (r: string)
      requires Valid()
      modifies this`decisionCache
      ensures (r, decisionCache) == Decide(old(decisionCache), e, msg, reply)
      ensures Valid() && (r == "move" || r == "stay")
    {
      var key := CacheKey(Kind(e), msg);
      if key in decisionCache {
        return decisionCache[key];
      }
      var txt := DecideFresh(e, msg, reply);
      decisionCache := decisionCache[key := txt];
      r := txt;
    }

    /** The handlers on register->contact, register->ban, contact->friend and
        good->very_good: they move when the decision for the edge's kind is "move",
        and then queue the sender (own edges) or record a good verdict about it
        (good->very_good). */
    method OnDecisionEdge(e: Edge, msg: map<string, Value>, reply: string) returns (r: Option<Event>)
      requires e != NeutralToGood && e != NeutralToBad
      requires Decide(decisionCache, e, msg, reply).0 == "move" ==> "from" in msg
      requires Valid()
      modifies this`decisionCache, queues
      ensures Valid()
      ensures decisionCache == Decide(old(decisionCache), e, msg, reply).1
      ensures r.Some? <==> Decide(old(decisionCache), e, msg, reply).0 == "move"
      ensures r.Some? ==> r.value == Move(Ok)
      ensures OwnEdge(e) ==>
                queues.Queue(e) == old(queues.Queue(e)) + (if r.Some? then [msg["from"]] else [])
                && queues.verdicts == old(queues.verdicts)
      ensures forall f :: OwnEdge(f) && f != e ==> queues.Queue(f) == old(queues.Queue(f))
      ensures e == GoodToVeryGood ==>
                queues.verdicts == old(queues.verdicts) + (if r.Some? then [Verdict(msg["from"], Good)] else [])
    {
      var decision := DecideMove(e, msg, reply);
      var from := if decision == "move" then msg["from"] else Null;
      r := ActOnDecision(e, decision == "move", from);
    }

    /** What a decision edge's handler does once decided: when it moves, it queues the
        sender (own edges) or records a good verdict about it (good->very_good). */
    method ActOnDecision(e: Edge, moves: bool, from: Value) returns (r: Option<Event>)
      requires e != NeutralToGood && e != NeutralToBad
      modifies queues
      ensures r == (if moves then Some(Move(Ok)) else None)
      ensures OwnEdge(e) ==>
                queues.Queue(e) == old(queues.Queue(e)) + (if moves then [from] else [])
                && queues.verdicts == old(queues.verdicts)
      ensures forall f :: OwnEdge(f) && f != e ==> queues.Queue(f) == old(queues.Queue(f))
      ensures e == GoodToVeryGood ==>
                queues.verdicts == old(queues.verdicts) + (if moves then [Verdict(from, Good)] else [])
    {
      if moves {
        if OwnEdge(e) {
          queues.Enqueue(e, from);
        } else {
          queues.Record(Verdict(from, Good));
        }
        r := Some(Move(Ok));
      } else {
        r := None;
      }
    }

    /** The handlers on neutral->good and neutral->bad: they move when the inferred
        flag is "good" (respectively "bad") and record that verdict about the sender. */
    method OnFlagEdge(e: Edge, msg: map<string, Value>, reply: string) returns (r: Option<Event>)
      requires e == NeutralToGood || e == NeutralToBad
      requires InferFlag(useLlmFlags, msg, reply) == (if e == NeutralToGood then "good" else "bad") ==> "from" in msg
      modifies queues
      ensures r.Some? <==> InferFlag(useLlmFlags, msg, reply) == (if e == NeutralToGood then "good" else "bad")
      ensures r.Some? ==> r.value == Move(Ok)
                          && queues.verdicts == old(queues.verdicts) + [Verdict(msg["from"], StatusOf(e))]
      ensures r.None? ==> queues.verdicts == old(queues.verdicts)
      ensures queues.contacts == old(queues.contacts) && queues.bans == old(queues.bans)
              && queues.friends == old(queues.friends)
    {
      var flag := InferFlag(useLlmFlags, msg, reply);
      if flag == (if e == NeutralToGood then "good" else "bad") {
        queues.Record(Verdict(msg["from"], StatusOf(e)));
        r := Some(Move(Ok));
      } else {
        r := None;
      }
    }

    // -------------------------------------------------------------------------
    // The listening phase, synchronisation and the dashboard

    /** `_refresh_dashboard_snapshot`: one row per id, in ascending id order. */
    method RefreshDashboard(now: int)
      modifies this`dashboard
      ensures dashboard == Dashboard(listening, Rows(channels.View(), lastSeen, lastMessage, now))
    {
      var v := channels.View();
      var rows := BuildRows(Sorted(DashboardIds(v, lastSeen)), v, lastSeen, lastMessage, now);
      dashboard := Dashboard(listening, rows);
    }

    /** The "listen --> register" handler: as in example 13, and the dashboard is
        refreshed when the phase ends. */
    method OnTravel(msg: Value, now: int) returns (r: Option<Event>)
      modifies this`listening, this`dashboard
      ensures r.Some? <==> old(listening) && msg == Str(Travel)
      ensures r.Some? ==> r.value == Move(Ok)
      ensures listening == (old(listening) && msg != Str(Travel))
      ensures r.Some? ==> dashboard == Dashboard(false, Rows(channels.View(), lastSeen, lastMessage, now))
      ensures r.None? ==> dashboard == old(dashboard)
    {
      if listening && msg == Str(Travel) {
        listening := false;
        RefreshDashboard(now);
        r := Some(Move(Ok));
      } else {
        r := None;
      }
    }

    /** `upload_states`: as in example 13, refreshing the dashboard on every path. */
    method UploadStates(msg: map<string, Value>, now: int) returns (r: Upload)
      requires !listening ==> SenderTyped(msg)
      modifies channels, this`dashboard
      ensures listening ==> r == Single("listen") && channels.View() == old(channels.View())
      ensures !listening ==> (r, channels.View()) == UploadDual(old(channels.View()), msg)
      ensures dashboard == Dashboard(listening, Rows(channels.View(), lastSeen, lastMessage, now))
    {
      if listening {
        r := Single("listen");
      } else {
        r := channels.Upload(msg);
      }
      RefreshDashboard(now);
    }

    /** `download_states`: as in example 13, except that a peer missing from a view
        reads as "" and gains an entry instead of raising; the dashboard is refreshed
        on every path. */
    method DownloadStates(offered: Offered, now: int)
      modifies channels, this`dashboard
      ensures listening ==> channels.View() == old(channels.View())
      ensures !listening ==> channels.View() == DownloadChannels(old(channels.View()), Normalise(offered))
      ensures dashboard == Dashboard(listening, Rows(channels.View(), lastSeen, lastMessage, now))
    {
      if !listening {
        channels.Download(Normalise(offered));
      }
      RefreshDashboard(now);
    }

    // -------------------------------------------------------------------------
    // Senders

    /** The `clock` sender: silent while listening, otherwise a broadcast of the
        generated text. */
    function Clock(text: string): (r: Option<Value>)
      reads this
      ensures r.None? <==> listening
      ensures r.Some? ==> r.value == Dict(map["message" := Str(text), "to" := Null])
    {
      if listening then None else Some(Dict(map["message" := Str(text), "to" := Null]))
    }

    /** The `reputation` sender: nothing while listening; otherwise its loop asks for
        a "good_flag" or "bad_flag" text per recorded verdict. */
    method Reputation(replies: seq<string>) returns (r: seq<Value>)
      requires !listening ==> |replies| == |queues.verdicts|
      ensures listening ==> r == []
      ensures !listening ==> r == StatusReports(queues.verdicts, replies)
    {
      if listening {
        return [];
      }
      r := BuildReports(queues.verdicts, replies);
    }

    /** A MOVE-gated sender: the generated text for its kind goes to every queued
        peer, and the list is emptied. */
    method Drain(e: Edge, reply: string) returns (r: seq<Value>)
      requires OwnEdge(e)
      modifies queues
      ensures r == DirectMessages(old(queues.Queue(e)), StatusMessage(DrainKind(e), reply))
      ensures queues.Queue(e) == []
      ensures forall f :: OwnEdge(f) && f != e ==> queues.Queue(f) == old(queues.Queue(f))
      ensures queues.verdicts == old(queues.verdicts)
    {
      var text := StatusMessage(DrainKind(e), reply);
      r := queues.Drain(e, text);
    }
  }

  /** The dashboard also lists senders the allowlist rejects: content from "Mallory"
      passes `validate` (and so is recorded) but not `check_sender`. */
  lemma RejectedSenderStillSeen(n: nat, addr: Value)
    requires n <= 1000
    ensures var env := Dict(map["remote_addr" := addr,
                                "content" := Dict(map["message" := Str("hi"), "to" := Null, "from" := Str("Mallory")])]);
            Hooks.Validate(Example14(n), false, env).Some?
            && SeenSender(Hooks.Validate(Example14(n), false, env).value) == Some("Mallory")
            && Hooks.Receive(Example14(n), false, env).None?
  {
    var env := Dict(map["remote_addr" := addr,
                        "content" := Dict(map["message" := Str("hi"), "to" := Null, "from" := Str("Mallory")])]);
    ReceiveAdmits(Example14(n), false, env);
    forall i | 0 <= i < |Example14(n).allowlist|
      ensures !StartsWith("Mallory", Example14(n).allowlist[i])
    {
      assert Example14(n).allowlist[i][0] == 'C';
    }
  }
}
