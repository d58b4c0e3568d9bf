/** The one-shot outboxes of examples 11 to 14. Edge handlers queue a peer (or a
    verdict about a peer); the MOVE-gated senders turn a queue into one direct
    message per entry, and the `reputation` sender reports the verdicts. */
module Outbox {
  import opened Values
  import opened Flow
  import Hooks

  /** `{"to": to, "message": text}`. */
  function Direct(to: Value, text: Value): (r: Value)
    ensures r.Dict? && r.fields.Keys == {"to", "message"}
    ensures r.fields["to"] == to && r.fields["message"] == text
  {
    Dict(map["to" := to, "message" := text])
  }

  /** `[{"to": id, "message": text} for id in ids]`. */
  function DirectMessages(ids: seq<Value>, text: string): (r: seq<Value>)
    ensures |r| == |ids|
    ensures forall i :: 0 <= i < |ids| ==> r[i] == Direct(ids[i], Str(text))
  {
    seq(|ids|, i requires 0 <= i < |ids| => Direct(ids[i], Str(text)))
  }

  /** The addressees of a batch of direct messages, in order. */
  function Recipients(msgs: seq<Value>): (r: seq<Value>)
    requires forall i :: 0 <= i < |msgs| ==> msgs[i].Dict? && "to" in msgs[i].fields
    ensures |r| == |msgs|
  {
    seq(|msgs|, i requires 0 <= i < |msgs| => msgs[i].fields["to"])
  }

  /** A drained queue reaches exactly the queued peers, once each and in queue order. */
  lemma RecipientsOfDirectMessages(ids: seq<Value>, text: string)
    ensures Recipients(DirectMessages(ids, text)) == ids
  {
  }

  // ---------------------------------------------------------------------------
  // Which queue an edge feeds

  /** The edges on the agent's own view of a peer, which queue the peer's id in
      `contact_list`, `ban_list` or `friend_list`. */
  predicate OwnEdge(e: Edge) {
    e == RegisterToContact || e == RegisterToBan || e == ContactToFriend
  }

  /** The verdict `to_them_list` records about how a peer treats the agent. */
  datatype Status = Good | Bad

  datatype Verdict = Verdict(to: Value, status: Status)

  /** The status each edge on the peer's view of the agent records. */
  function StatusOf(e: Edge): Status
    requires !OwnEdge(e)
  {
    if e == NeutralToBad then Bad else Good
  }

  /** The fixed text of each MOVE-gated sender in examples 11 to 13. */
  function DrainText(e: Edge): string
    requires OwnEdge(e)
  {
    match e
    case RegisterToContact => "You are my contact"
    case RegisterToBan => "You are banned"
    case ContactToFriend => "You are my friend"
  }

  /** The `reputation` text of examples 12 and 13. */
  function ReputationText(s: Status): string {
    match s
    case Good => "I like you"
    case Bad => "I don't like you"
  }

  /** `[{"to": d["to"], "message": msg(d["status"])} for d in to_them_list]`. */
  function ReputationMessages(verdicts: seq<Verdict>): (r: seq<Value>)
    ensures |r| == |verdicts|
    ensures forall i :: 0 <= i < |verdicts| ==>
              r[i] == Direct(verdicts[i].to, Str(ReputationText(verdicts[i].status)))
  {
    seq(|verdicts|, i requires 0 <= i < |verdicts| =>
      Direct(verdicts[i].to, Str(ReputationText(verdicts[i].status))))
  }

  // ---------------------------------------------------------------------------
  // The protocol between two agents

  /** The edge a drained message fires on the receiving peer's view of the sender:
      the peer-view edge whose phrase is the drained text. */
  function Mirror(e: Edge): (r: Edge)
    requires OwnEdge(e)
    ensures !OwnEdge(r) && Phrase(r) == DrainText(e)
  {
    match e
    case RegisterToContact => NeutralToGood
    case RegisterToBan => NeutralToBad
    case ContactToFriend => GoodToVeryGood
  }

  /** The edge a reputation message fires on the receiving peer's own view: the own
      edge whose phrase is the reputation text. */
  function Answer(s: Status): (r: Edge)
    ensures OwnEdge(r) && Phrase(r) == ReputationText(s)
  {
    match s
    case Good => ContactToFriend
    case Bad => RegisterToBan
  }

  /** A queued contact, ban or friendship, once drained and signed, fires exactly the
      matching edge on the peer's side, and that edge records the matching verdict:
      a contact or a friendship is heard as "good", a ban as "bad". */
  lemma DrainFiresMirror(agentId: string, ids: seq<Value>, e: Edge, i: nat)
    requires OwnEdge(e) && i < |ids|
    ensures var signed := Hooks.Sign(agentId, DirectMessages(ids, DrainText(e))[i]);
            signed.Some? && "message" in signed.value.fields
            && OnPhrase(Mirror(e), signed.value.fields) == Some(Move(Ok))
            && (forall f :: f != Mirror(e) && Source(f) == Source(Mirror(e))
                  ==> OnPhrase(f, signed.value.fields) == None)
            && StatusOf(Mirror(e)) == (if e == RegisterToBan then Bad else Good)
  {
    var signed := Hooks.Sign(agentId, DirectMessages(ids, DrainText(e))[i]);
    assert signed.value.fields["message"] == Str(DrainText(e));
    forall f | f != Mirror(e) && Source(f) == Source(Mirror(e))
      ensures OnPhrase(f, signed.value.fields) == None
    {
      PhraseEdgesExclusive(f, Mirror(e), signed.value.fields);
    }
  }

  /** A reputation message, once signed, fires the peer's contact->friend edge for a
      good verdict and its register->ban edge for a bad one. */
  lemma ReputationFiresAnswer(agentId: string, verdicts: seq<Verdict>, i: nat)
    requires i < |verdicts|
    ensures var signed := Hooks.Sign(agentId, ReputationMessages(verdicts)[i]);
            signed.Some? && "message" in signed.value.fields
            && OnPhrase(Answer(verdicts[i].status), signed.value.fields) == Some(Move(Ok))
  {
    var signed := Hooks.Sign(agentId, ReputationMessages(verdicts)[i]);
    assert signed.value.fields["message"] == Str(ReputationText(verdicts[i].status));
  }

  // ---------------------------------------------------------------------------
  // The lists themselves

  /** `contact_list`, `ban_list` and `friend_list` (peer ids queued by the agent's own
      edges) and `to_them_list` (verdicts recorded by the peer edges). */
  class Queues {
    var contacts: seq<Value>
    var bans: seq<Value>
    var friends: seq<Value>
    var verdicts: seq<Verdict>

    constructor ()
      ensures contacts == [] && bans == [] && friends == [] && verdicts == []
    {
      contacts, bans, friends, verdicts := [], [], [], [];
    }

    /** The list an own edge feeds. */
    function Queue(e: Edge): seq<Value>
      requires OwnEdge(e)
      reads this
    {
      match e
      case RegisterToContact => contacts
      case RegisterToBan => bans
      case ContactToFriend => friends
    }

    /** `<list>.append(id)` for the list an own edge feeds; nothing else changes. */
    method Enqueue(e: Edge, id: Value)
      requires OwnEdge(e)
      modifies this
      ensures Queue(e) == old(Queue(e)) + [id]
      ensures forall f :: OwnEdge(f) && f != e ==> Queue(f) == old(Queue(f))
      ensures verdicts == old(verdicts)
    {
      match e
      case RegisterToContact => contacts := contacts + [id];
      case RegisterToBan => bans := bans + [id];
      case ContactToFriend => friends := friends + [id];
    }

    /** `to_them_list.append({"to": ..., "status": ...})`; the own lists are untouched. */
    method Record(v: Verdict)
      modifies this
      ensures verdicts == old(verdicts) + [v]
      ensures contacts == old(contacts) && bans == old(bans) && friends == old(friends)
    {
      verdicts := verdicts + [v];
    }

    /** An own edge handler of examples 11 to 13: on its phrase it queues the sender
        and moves; on any other message it leaves every list as it was. */
    method OnOwnEdge(e: Edge, msg: map<string, Value>) returns (r: Option<Event>)
      requires OwnEdge(e) && "message" in msg
      requires msg["message"] == Str(Phrase(e)) ==> "from" in msg
      modifies this
      ensures r == OnPhrase(e, msg)
      ensures r.Some? ==> Queue(e) == old(Queue(e)) + [msg["from"]]
      ensures r.None? ==> Queue(e) == old(Queue(e))
      ensures forall f :: OwnEdge(f) && f != e ==> Queue(f) == old(Queue(f))
      ensures verdicts == old(verdicts)
    {
      r := OnPhrase(e, msg);
      if r.Some? {
        Enqueue(e, msg["from"]);
      }
    }

    /** A peer edge handler of examples 12 and 13: on its phrase it records the verdict
        the edge stands for (bad for neutral->bad, good otherwise) about the sender. */
    method OnPeerEdge(e: Edge, msg: map<string, Value>) returns (r: Option<Event>)
      requires !OwnEdge(e) && "message" in msg
      requires msg["message"] == Str(Phrase(e)) ==> "from" in msg
      modifies this
      ensures r == OnPhrase(e, msg)
      ensures r.Some? ==> verdicts == old(verdicts) + [Verdict(msg["from"], StatusOf(e))]
      ensures r.None? ==> verdicts == old(verdicts)
      ensures contacts == old(contacts) && bans == old(bans) && friends == old(friends)
    {
      r := OnPhrase(e, msg);
      if r.Some? {
        Record(Verdict(msg["from"], StatusOf(e)));
      }
    }

    /** A MOVE-gated sender: one direct message with `text` per queued peer, after
        which the list is empty whatever happened (the `finally` clause); the other
        lists are untouched. */
    method Drain(e: Edge, text: string) returns (r: seq<Value>)
      requires OwnEdge(e)
      modifies this
      ensures r == DirectMessages(old(Queue(e)), text)
      ensures Queue(e) == []
      ensures forall f :: OwnEdge(f) && f != e ==> Queue(f) == old(Queue(f))
      ensures verdicts == old(verdicts)
    {
      r := DirectMessages(Queue(e), text);
      match e
      case RegisterToContact => contacts := [];
      case RegisterToBan => bans := [];
      case ContactToFriend => friends := [];
    }
  }
}
