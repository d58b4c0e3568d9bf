/** Examples 4 to 8: stateless agents. Their hooks are `Hooks` under each example's
    configuration; their `clock` senders emit a constant; their `state` is never
    reassigned, so `upload_states` always publishes "register". */
module EarlyExamples {
  import opened Values
  import opened Flow
  import opened Hooks

  const Initial: string := "register"

  /** The `clock` payload of examples 4 to 6. */
  const Hello: Value := Str("hello")

  /** The `clock` payload of examples 7 and 8: a broadcast. */
  const Broadcast: Value := Dict(map["message" := Str("Hello"), "to" := Null])

  /** Example 4: `clock`'s "hello" leaves `sign` as a dict with the message and the sender. */
  lemma SignedClock4()
    ensures Sign("ChangeMe_Agent_4", Hello)
            == Some(Dict(map["message" := Str("hello"), "from" := Str("ChangeMe_Agent_4")]))
  {
  }

  /** Example 6: the same for "ChangeMe_Agent_6". */
  lemma SignedClock6()
    ensures Sign(Example6.agentId, Hello)
            == Some(Dict(map["message" := Str("hello"), "from" := Str("ChangeMe_Agent_6")]))
  {
  }

  /** Example 7: the broadcast keeps `to = None` and gains `from`. */
  lemma SignedClock7()
    ensures Sign(Example7.agentId, Broadcast)
            == Some(Dict(map["message" := Str("Hello"), "to" := Null, "from" := Str("ChangeMe_Agent_7")]))
  {
    assert Sign(Example7.agentId, Broadcast).value.fields.Keys == {"message", "to", "from"};
  }

  /** Example 8: the signed broadcast. */
  function SignedClock8(): (r: Value)
    ensures r == Dict(map["message" := Str("Hello"), "to" := Null, "from" := Str("ChangeMe_Agent_8")])
  {
    assert Sign(Example8.agentId, Broadcast).value.fields.Keys == {"message", "to", "from"};
    Sign(Example8.agentId, Broadcast).value
  }

  /** Example 8's broadcast, wrapped in a transport envelope, passes an example 8
      agent's hooks (it is addressed to everyone and comes from an allowed id), and its
      "Hello" fires the register->contact edge: the agents greet each other into
      contacts. */
  lemma ClockGreetsPeers8(addr: Value)
    ensures var env := Dict(map["remote_addr" := addr, "content" := SignedClock8()]);
            Receive(Example8, false, env) == Some(SignedClock8())
            && OnPhrase(RegisterToContact, SignedClock8().fields) == Some(Move(Ok))
  {
    var env := Dict(map["remote_addr" := addr, "content" := SignedClock8()]);
    ReceiveAdmits(Example8, false, env);
    assert Allowed(Example8, SignedClock8().fields) by {
      assert Get(SignedClock8().fields, "from", Null) == Str(Example8.allowlist[2]);
    }
  }

  /** Example 5: an envelope passes exactly when it is a dict with "remote_addr" and
      "content" and the content is a dict with a `from`; what passes is the content. */
  lemma Admission5(listening: bool, env: Value)
    ensures Receive(Example5, listening, env).Some? <==>
              WellFormedEnvelope(env) && ContentOf(env).Dict? && "from" in ContentOf(env).fields
    ensures Receive(Example5, listening, env).Some? ==> Receive(Example5, listening, env).value == ContentOf(env)
  {
    ReceiveAdmits(Example5, listening, env);
  }

  /** Example 6: no `to` filter, and only "ChangeMe_Agent_6" is let through. */
  lemma Admission6(listening: bool, env: Value)
    ensures Receive(Example6, listening, env).Some? <==>
              WellFormedEnvelope(env) && ContentOf(env).Dict?
              && "from" in ContentOf(env).fields
              && ContentOf(env).fields["from"] == Str("ChangeMe_Agent_6")
  {
    ReceiveAdmits(Example6, listening, env);
    if WellFormedEnvelope(env) && ContentOf(env).Dict? && "from" in ContentOf(env).fields {
      assert Get(ContentOf(env).fields, "from", Null) == ContentOf(env).fields["from"];
      assert Example6.allowlist[0] == "ChangeMe_Agent_6";
    }
  }

  /** Example 7: broadcast or direct content from "ChangeMe_Agent_6" or
      "ChangeMe_Agent_7". */
  lemma Admission7(listening: bool, env: Value)
    ensures Receive(Example7, listening, env).Some? <==>
              WellFormedEnvelope(env) && ContentOf(env).Dict?
              && "to" in ContentOf(env).fields
              && ContentOf(env).fields["to"] in [Null, Str("ChangeMe_Agent_7")]
              && "from" in ContentOf(env).fields
              && ContentOf(env).fields["from"] in [Str("ChangeMe_Agent_6"), Str("ChangeMe_Agent_7")]
  {
    ReceiveAdmits(Example7, listening, env);
    if WellFormedEnvelope(env) && ContentOf(env).Dict? && "from" in ContentOf(env).fields {
      var f := ContentOf(env).fields["from"];
      assert Get(ContentOf(env).fields, "from", Null) == f;
      assert f in [Str("ChangeMe_Agent_6"), Str("ChangeMe_Agent_7")] ==> Allowed(Example7, ContentOf(env).fields) by {
        if f == Str("ChangeMe_Agent_6") { assert f == Str(Example7.allowlist[0]); }
        if f == Str("ChangeMe_Agent_7") { assert f == Str(Example7.allowlist[1]); }
      }
    }
  }

  /** Example 8: broadcast or direct content from one of agents 6 to 8. */
  lemma Admission8(listening: bool, env: Value)
    ensures Receive(Example8, listening, env).Some? <==>
              WellFormedEnvelope(env) && ContentOf(env).Dict?
              && "to" in ContentOf(env).fields
              && ContentOf(env).fields["to"] in [Null, Str("ChangeMe_Agent_8")]
              && "from" in ContentOf(env).fields
              && ContentOf(env).fields["from"] in [Str("ChangeMe_Agent_6"), Str("ChangeMe_Agent_7"), Str("ChangeMe_Agent_8")]
  {
    ReceiveAdmits(Example8, listening, env);
    if WellFormedEnvelope(env) && ContentOf(env).Dict? && "from" in ContentOf(env).fields {
      var f := ContentOf(env).fields["from"];
      assert Get(ContentOf(env).fields, "from", Null) == f;
      assert f in [Str("ChangeMe_Agent_6"), Str("ChangeMe_Agent_7"), Str("ChangeMe_Agent_8")]
             ==> Allowed(Example8, ContentOf(env).fields) by {
        if f == Str("ChangeMe_Agent_6") { assert f == Str(Example8.allowlist[0]); }
        if f == Str("ChangeMe_Agent_7") { assert f == Str(Example8.allowlist[1]); }
        if f == Str("ChangeMe_Agent_8") { assert f == Str(Example8.allowlist[2]); }
      }
    }
  }

  /** Example 8's `download_states` only shows the offered states; the stored state
      stays what it was. */
  function Download8(state: string, offered: seq<string>): (r: string)
    ensures r == state
  {
    state
  }

  /** The state after any sequence of downloads. */
  function AfterDownloads8(state: string, history: seq<seq<string>>): string
    decreases |history|
  {
    if history == [] then state
    else Download8(AfterDownloads8(state, history[..|history| - 1]), history[|history| - 1])
  }

  /** Whatever the engine offers, example 8 keeps publishing "register". */
  lemma {:induction false} AlwaysRegister8(history: seq<seq<string>>)
    ensures AfterDownloads8(Initial, history) == "register"
    decreases |history|
  {
    if history != [] {
      AlwaysRegister8(history[..|history| - 1]);
    }
  }
}
