/** Example 13: the agent starts in a listening phase in which it answers only the
    "/travel" control token; the token's edge moves it to "register" and ends the
    phase for good. Outside the phase it behaves as example 12. */
module Example13 {
  import opened Values
  import opened Flow
  import opened Hooks
  import opened Sync
  import opened Outbox

  class Agent {
    var listening: bool
    const channels: ChannelTable
    const queues: Queues

    constructor ()
      ensures listening
      ensures fresh(channels) && fresh(queues)
      ensures channels.relations == map[] && channels.outsideView == map[]
      ensures queues.contacts == [] && queues.bans == [] && queues.friends == [] && queues.verdicts == []
    {
      listening := true;
      channels := new ChannelTable();
      queues := new Queues();
    }

    /** The "listen --> register" handler: while listening, "/travel" ends the phase
        and moves; anything else, or any message after the phase, yields no event. */
    method OnTravel(msg: Value) returns (r: Option<Event>)
      modifies this
      ensures r.Some? <==> old(listening) && msg == Str(Travel)
      ensures r.Some? ==> r.value == Move(Ok)
      ensures listening == (old(listening) && msg != Str(Travel))
    {
      if listening && msg == Str(Travel) {
        listening := false;
        r := Some(Move(Ok));
      } else {
        r := None;
      }
    }

    /** `upload_states`: "listen" while listening, without touching the views;
        afterwards the dual upload of example 12. */
    method UploadStates(msg: map<string, Value>) returns (r: Upload)
      requires !listening ==> SenderTyped(msg)
      modifies channels
      ensures old(listening) ==> r == Single("listen") && channels.View() == old(channels.View())
      ensures !old(listening) ==> (r, channels.View()) == UploadDual(old(channels.View()), msg)
    {
      if listening {
        r := Single("listen");
      } else {
        r := channels.Upload(msg);
      }
    }

    /** `download_states`: nothing while listening; afterwards a bare list is read as
        `{"default": list}` and the offers go through the prefixed loop. Every peer an
        offer names must be known on its channel (the loop indexes the views
        directly). */
    method DownloadStates(offered: Offered)
      requires !listening ==> KnownPeers(channels.View(), Normalise(offered))
      modifies channels
      ensures old(listening) ==> channels.View() == old(channels.View())
      ensures !old(listening) ==> channels.View() == DownloadChannels(old(channels.View()), Normalise(offered))
      ensures channels.relations.Keys == old(channels.relations.Keys)
      ensures channels.outsideView.Keys == old(channels.outsideView.Keys)
    {
      if !listening {
        channels.Download(Normalise(offered));
      }
    }

    /** The `clock` sender: silent while listening, a broadcast "Hello" afterwards. */
    function Clock(): (r: Option<Value>)
      reads this
      ensures r.None? <==> listening
      ensures r.Some? ==> r.value == Dict(map["message" := Str("Hello"), "to" := Null])
    {
      if listening then None else Some(Dict(map["message" := Str("Hello"), "to" := Null]))
    }

    /** The `reputation` sender: no messages while listening, one per recorded verdict
        afterwards. */
    function Reputation(): (r: seq<Value>)
      reads this, queues
      ensures listening ==> r == []
      ensures !listening ==> r == ReputationMessages(queues.verdicts)
    {
      if listening then [] else ReputationMessages(queues.verdicts)
    }
  }

  /** The control token passes both RECEIVE hooks exactly while the agent listens. */
  lemma TravelAdmission(n: nat, listening: bool, addr: Value)
    requires n <= 1000
    ensures Receive(Example13(n), listening, Dict(map["remote_addr" := addr, "content" := Str(Travel)])).Some?
            <==> listening
  {
    ReceiveAdmits(Example13(n), listening, Dict(map["remote_addr" := addr, "content" := Str(Travel)]));
  }
}
