/** Example 9: the first agent whose `download_states` changes what it publishes. It
    keeps a single `state` and adopts the first offered state that differs from it. */
module Example9 {
  import opened Values
  import opened Hooks
  import opened Sync

  class Agent {
    var state: string

    constructor ()
      ensures state == "register"
    {
      state := "register";
    }

    /** `upload_states` publishes the current state and changes nothing. */
    method UploadStates() returns (r: Upload)
      ensures r == Single(state)
    {
      r := Single(state);
    }

    /** `download_states`: the state becomes the first offered state that differs from
        it, and stays when every offered state equals it. */
    method DownloadStates(offered: seq<string>)
      modifies this
      ensures state == Adopt(old(state), offered)
    {
      match FirstDiffering(offered, state) {
        case Some(v) =>
          state := v;
        case None =>
      }
    }
  }

  /** Example 9 admits broadcast or direct content from agents 6 to 9, compared
      exactly. */
  lemma Admission9(listening: bool, env: Value)
    ensures Receive(Example9, listening, env).Some? <==>
              WellFormedEnvelope(env) && ContentOf(env).Dict?
              && "to" in ContentOf(env).fields
              && ContentOf(env).fields["to"] in [Null, Str("ChangeMe_Agent_9")]
              && "from" in ContentOf(env).fields && ContentOf(env).fields["from"].Str?
              && ContentOf(env).fields["from"].s in
                   ["ChangeMe_Agent_6", "ChangeMe_Agent_7", "ChangeMe_Agent_8", "ChangeMe_Agent_9"]
  {
    ReceiveAdmits(Example9, listening, env);
    if WellFormedEnvelope(env) && ContentOf(env).Dict? {
      ExactAllowed(Example9, ContentOf(env).fields);
    }
  }
}
