/** Why examples 10 to 14 compare senders by prefix: their AGENT_IDs carry a random
    suffix, so an exact allowlist can never name them. */
module PrefixMatching {
  import opened Text
  import opened Values
  import opened Hooks

  /** A broadcast from `sender`, as it arrives from the server. */
  function BroadcastEnvelope(addr: Value, message: Value, sender: string): (r: Value)
    ensures WellFormedEnvelope(r) && ContentOf(r).Dict?
    ensures ContentOf(r).fields == map["message" := message, "to" := Null, "from" := Str(sender)]
  {
    Dict(map["remote_addr" := addr,
              "content" := Dict(map["message" := message, "to" := Null, "from" := Str(sender)])])
  }

  /** Under prefix matching, a broadcast from any suffixed id of a listed family passes
      both RECEIVE hooks unchanged. */
  lemma SuffixedSiblingAdmitted(cfg: Config, listening: bool, i: nat, m: nat, addr: Value, message: Value)
    requires cfg.matching == Prefix && i < |cfg.allowlist| && m <= 1000
    ensures var env := BroadcastEnvelope(addr, message, SuffixedId(cfg.allowlist[i], m));
            Receive(cfg, listening, env) == Some(ContentOf(env))
  {
    var sender := SuffixedId(cfg.allowlist[i], m);
    var env := BroadcastEnvelope(addr, message, sender);
    assert StartsWith(sender, cfg.allowlist[i]) by {
      assert sender[..|cfg.allowlist[i]|] == cfg.allowlist[i];
    }
    ReceiveAdmits(cfg, listening, env);
  }

  /** Every example 14 agent admits the broadcasts of every other example 14 agent,
      whatever their random suffixes. */
  lemma Example14AgentsHearEachOther(n: nat, m: nat, listening: bool, addr: Value, message: Value)
    requires n <= 1000 && m <= 1000
    ensures var env := BroadcastEnvelope(addr, message, SuffixedId("ChangeMe_Agent_14", m));
            Receive(Example14(n), listening, env) == Some(ContentOf(env))
  {
    assert Example14(n).allowlist[8] == "ChangeMe_Agent_14";
    SuffixedSiblingAdmitted(Example14(n), listening, 8, m, addr, message);
  }

  /** Under exact matching the same broadcast is dropped: example 9 cannot hear a
      suffixed agent even of a family it lists. */
  lemma ExactRejectsSuffixed(listening: bool, i: nat, m: nat, addr: Value, message: Value)
    requires i < |Example9.allowlist| && m <= 1000
    ensures Receive(Example9, listening, BroadcastEnvelope(addr, message, SuffixedId(Example9.allowlist[i], m))).None?
  {
    var sender := SuffixedId(Example9.allowlist[i], m);
    var env := BroadcastEnvelope(addr, message, sender);
    ReceiveAdmits(Example9, listening, env);
    ExactAllowed(Example9, ContentOf(env).fields);
    assert |sender| > |Example9.allowlist[i]| == 16;
    assert forall j :: 0 <= j < |Example9.allowlist| ==> |Example9.allowlist[j]| == 16;
  }

  /** A peer id that merely starts with a listed entry passes too: the id
      "ChangeMe_Agent_6to_me:x" reaches the handlers of an example 12 agent. */
  lemma ListedPrefixSuffices(n: nat, listening: bool, addr: Value, message: Value, sender: string)
    requires n <= 1000 && sender == "ChangeMe_Agent_6to_me:x"
    ensures Receive(Example12(n), listening, BroadcastEnvelope(addr, message, sender)).Some?
  {
    var env := BroadcastEnvelope(addr, message, sender);
    assert StartsWith(sender, Example12(n).allowlist[0]) by {
      assert sender[..16] == "ChangeMe_Agent_6";
    }
    ReceiveAdmits(Example12(n), listening, env);
  }
}
