/** What a route handler hands back to the flow engine, the edges the agents declare,
    and the handlers that decide on a fixed phrase (examples 8 to 13). */
module Flow {
  import opened Values

  /** The only trigger the agents' graphs declare: `Trigger.ok`. */
  datatype Trigger = Ok

  /** `Test` reports a trigger, `Move` asks to traverse the matched edge, `Stay` asks
      explicitly not to. A handler that returns nothing is modelled by `None`. */
  datatype Event = Test(trigger: Trigger) | Move(trigger: Trigger) | Stay(trigger: Trigger)

  /** The edges that carry a decision: three on the agent's own view of a peer
      (register, contact, friend, ban) and three on the peer's view of the agent
      (neutral, good, very_good, bad). */
  datatype Edge =
    | RegisterToContact | RegisterToBan | ContactToFriend
    | NeutralToGood | NeutralToBad | GoodToVeryGood

  function Source(e: Edge): string {
    match e
    case RegisterToContact => "register"
    case RegisterToBan => "register"
    case ContactToFriend => "contact"
    case NeutralToGood => "neutral"
    case NeutralToBad => "neutral"
    case GoodToVeryGood => "good"
  }

  function Target(e: Edge): string {
    match e
    case RegisterToContact => "contact"
    case RegisterToBan => "ban"
    case ContactToFriend => "friend"
    case NeutralToGood => "good"
    case NeutralToBad => "bad"
    case GoodToVeryGood => "very_good"
  }

  /** The decision kind example 14 passes to its policy, e.g. "register->contact". */
  function Kind(e: Edge): string {
    Source(e) + "->" + Target(e)
  }

  /** The exact text that makes each edge fire in examples 8 to 13. */
  function Phrase(e: Edge): string {
    match e
    case RegisterToContact => "Hello"
    case RegisterToBan => "I don't like you"
    case ContactToFriend => "I like you"
    case NeutralToGood => "You are my contact"
    case NeutralToBad => "You are banned"
    case GoodToVeryGood => "You are my friend"
  }

  /** The node handlers on "register", "contact", "friend" and "ban" log the message
      and report the trigger, whatever the message. */
  function OnNode(msg: Value): (e: Event)
    ensures e == Test(Ok)
  {
    Test(Ok)
  }

  /** An edge handler of examples 8 to 10: `Move(Trigger.ok)` when the message text
      is the edge's phrase, no event otherwise. Indexing `msg["message"]` fails on a
      message without one, hence the precondition. */
  function OnPhrase(e: Edge, msg: map<string, Value>): (r: Option<Event>)
    requires "message" in msg
    ensures r == None || r == Some(Move(Ok))
    ensures r.Some? <==> msg["message"] == Str(Phrase(e))
  {
    if msg["message"] == Str(Phrase(e)) then Some(Move(Ok)) else None
  }

  /** No two edges share a phrase, so a phrase names its edge. */
  lemma PhrasesDistinct(e1: Edge, e2: Edge)
    requires e1 != e2
    ensures Phrase(e1) != Phrase(e2)
  {
    assert |Phrase(e1)| != |Phrase(e2)|;
  }

  /** Two edges that leave the same node never both fire on one message, so the
      engine never has to choose between two moves. */
  lemma PhraseEdgesExclusive(e1: Edge, e2: Edge, msg: map<string, Value>)
    requires "message" in msg && e1 != e2 && Source(e1) == Source(e2)
    ensures !(OnPhrase(e1, msg).Some? && OnPhrase(e2, msg).Some?)
  {
    PhrasesDistinct(e1, e2);
  }
}
