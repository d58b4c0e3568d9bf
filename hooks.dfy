/** The hook chains. RECEIVE: `validate` (priority 0) checks the transport envelope
    and returns its `content`; `check_sender` (priority 1) applies the sender
    allowlist. SEND: `sign` normalises the payload and stamps the sender. Each
    example configures the same hooks differently; `Config` captures how. */
module Hooks {
  import opened Text
  import opened Values

  /** Example 6 to 9 compare `from` with the allowlist entries; examples 10 to 14
      accept any `from` that starts with one of them. */
  datatype Matching = Exact | Prefix

  datatype Config = Config(
    agentId: string,       // AGENT_ID
    addressed: bool,       // validate drops content whose `to` is neither None nor AGENT_ID
    controlToken: bool,    // "/travel" passes both hooks while listening
    screened: bool,        // check_sender is registered
    allowlist: seq<string>,
    matching: Matching)

  const Travel: string := "/travel"

  // ---------------------------------------------------------------------------
  // The examples' configurations

  /** AGENT_ID of examples 10 to 14: a fixed stem, "_" and `random.randint(0, 1000)`. */
  function SuffixedId(stem: string, n: nat): string
    requires n <= 1000
  {
    stem + "_" + Decimal(n)
  }

  const Example5: Config := Config("ChangeMe_Agent_5", false, false, false, [], Exact)
  const Example6: Config := Config("ChangeMe_Agent_6", false, false, true, ["ChangeMe_Agent_6"], Exact)
  const Example7: Config := Config("ChangeMe_Agent_7", true, false, true,
    ["ChangeMe_Agent_6", "ChangeMe_Agent_7"], Exact)
  const Example8: Config := Config("ChangeMe_Agent_8", true, false, true,
    ["ChangeMe_Agent_6", "ChangeMe_Agent_7", "ChangeMe_Agent_8"], Exact)
  const Example9: Config := Config("ChangeMe_Agent_9", true, false, true,
    ["ChangeMe_Agent_6", "ChangeMe_Agent_7", "ChangeMe_Agent_8", "ChangeMe_Agent_9"], Exact)

  const Roster10: seq<string> :=
    ["ChangeMe_Agent_6", "ChangeMe_Agent_7", "ChangeMe_Agent_8", "ChangeMe_Agent_9", "ChangeMe_Agent_10"]
  const Roster11: seq<string> := Roster10 + ["ChangeMe_Agent_11"]
  const Roster12: seq<string> := Roster11 + ["ChangeMe_Agent_12"]
  const Roster13: seq<string> := Roster12 + ["ChangeMe_Agent_13"]
  const Roster14: seq<string> := Roster13 + ["ChangeMe_Agent_14"]

  function Example10(n: nat): Config requires n <= 1000 {
    Config(SuffixedId("ChangeMe_Agent_10", n), true, false, true, Roster10, Prefix)
  }
  function Example11(n: nat): Config requires n <= 1000 {
    Config(SuffixedId("ChangeMe_Agent_11", n), true, false, true, Roster11, Prefix)
  }
  function Example12(n: nat): Config requires n <= 1000 {
    Config(SuffixedId("ChangeMe_Agent_12", n), true, false, true, Roster12, Prefix)
  }
  function Example13(n: nat): Config requires n <= 1000 {
    Config(SuffixedId("ChangeMe_Agent_13", n), true, true, true, Roster13, Prefix)
  }
  function Example14(n: nat): Config requires n <= 1000 {
    Config(SuffixedId("ChangeMe_Agent_14", n), true, true, true, Roster14, Prefix)
  }

  // ---------------------------------------------------------------------------
  // RECEIVE, priority 0: validate

  /** A dict envelope carrying "remote_addr" and "content". */
  predicate WellFormedEnvelope(env: Value) {
    env.Dict? && "remote_addr" in env.fields && "content" in env.fields
  }

  function ContentOf(env: Value): Value
    requires WellFormedEnvelope(env)
  {
    env.fields["content"]
  }

  /** The control token, which passes while the agent is listening. */
  predicate IsControl(cfg: Config, listening: bool, content: Value) {
    cfg.controlToken && content == Str(Travel) && listening
  }

  /** `content.get("to", "") in [None, AGENT_ID]`. */
  predicate AddressedToUs(content: map<string, Value>, agentId: string) {
    var to := Get(content, "to", Str(""));
    to == Null || to == Str(agentId)
  }

  /** Structured content the agent accepts: a dict with a sender, addressed to it
      (broadcast or direct) where the example filters on `to`. */
  predicate Acceptable(cfg: Config, content: Value) {
    content.Dict? && (!cfg.addressed || AddressedToUs(content.fields, cfg.agentId))
    && "from" in content.fields
  }

  /** The `validate` hook: what passes is the envelope's content, not the envelope,
      and it is either the control token or acceptable structured content. */
  function Validate(cfg: Config, listening: bool, env: Value): (r: Option<Value>)
    ensures r.Some? ==> WellFormedEnvelope(env) && r.value == ContentOf(env)
    ensures r.Some? ==> IsControl(cfg, listening, r.value) || Acceptable(cfg, r.value)
    ensures WellFormedEnvelope(env) && Acceptable(cfg, ContentOf(env)) ==> r.Some?
  {
    if !WellFormedEnvelope(env) then None
    else
      var content := env.fields["content"];
      if cfg.controlToken && content == Str(Travel) && listening then Some(content)
      else if !content.Dict? then None
      else if cfg.addressed && Get(content.fields, "to", Str("")) !in [Null, Str(cfg.agentId)] then None
      else if "from" !in content.fields then None
      else Some(content)
  }

  // ---------------------------------------------------------------------------
  // RECEIVE, priority 1: check_sender

  /** `from`, where present, is a string: the prefix test slices it. */
  predicate SenderIsText(content: map<string, Value>) {
    "from" in content ==> content["from"].Str?
  }

  /** The inputs on which `check_sender` runs without raising: `content.get` needs a
      dict (unless the control token returns first), and the prefix test needs a
      string sender. */
  predicate CheckSenderDefined(cfg: Config, listening: bool, content: Value) {
    IsControl(cfg, listening, content)
    || (content.Dict? && (cfg.matching == Prefix ==> SenderIsText(content.fields)))
  }

  /** The allowlist decision, in terms of the sender's identity: the exact test reads
      a missing `from` as `None`, the prefix test as the empty string. An empty list
      admits nobody, only string senders pass, and a message without `from` passes
      only the prefix test of an empty entry. */
  predicate Allowed(cfg: Config, content: map<string, Value>)
    ensures cfg.allowlist == [] ==> !Allowed(cfg, content)
    ensures Allowed(cfg, content) ==> Get(content, "from", Str("")).Str?
    ensures Allowed(cfg, content) && "from" !in content ==> cfg.matching == Prefix && "" in cfg.allowlist
  {
    match cfg.matching
    case Exact =>
      exists i :: 0 <= i < |cfg.allowlist| && Get(content, "from", Null) == Str(cfg.allowlist[i])
    case Prefix =>
      var sender := Get(content, "from", Str(""));
      sender.Str? && exists i :: 0 <= i < |cfg.allowlist| && StartsWith(sender.s, cfg.allowlist[i])
  }

  /** The exact test admits precisely the string senders listed in the allowlist. */
  lemma ExactAllowed(cfg: Config, content: map<string, Value>)
    requires cfg.matching == Exact
    ensures Allowed(cfg, content) <==> "from" in content && content["from"].Str? && content["from"].s in cfg.allowlist
  {
    if "from" in content && content["from"].Str? && content["from"].s in cfg.allowlist {
      var i :| 0 <= i < |cfg.allowlist| && cfg.allowlist[i] == content["from"].s;
      assert Get(content, "from", Null) == Str(cfg.allowlist[i]);
    }
  }

  /** `any(s == sender[:len(s)] for s in allowlist)`. */
  predicate AnySliceMatches(allowlist: seq<string>, sender: string) {
    exists i :: 0 <= i < |allowlist| && allowlist[i] == Take(sender, |allowlist[i]|)
  }

  /** The `check_sender` hook: it passes its input unchanged, and passes it exactly
      when it is the control token or comes from an allowed sender. */
  function CheckSender(cfg: Config, listening: bool, content: Value): (r: Option<Value>)
    requires CheckSenderDefined(cfg, listening, content)
    ensures r.Some? ==> r.value == content
    ensures r.Some? <==> IsControl(cfg, listening, content)
                         || Allowed(cfg, content.fields)
  {
    if cfg.controlToken && content == Str(Travel) && listening then Some(content)
    else
      match cfg.matching
      case Exact =>
        var sender := Get(content.fields, "from", Null);
        if exists i :: 0 <= i < |cfg.allowlist| && sender == Str(cfg.allowlist[i])
        then Some(content) else None
      case Prefix =>
        var sender := Get(content.fields, "from", Str("")).s;
        SliceTestIsPrefixTest(cfg.allowlist, sender);
        if AnySliceMatches(cfg.allowlist, sender) then Some(content) else None
  }

  lemma SliceTestIsPrefixTest(allowlist: seq<string>, sender: string)
    ensures AnySliceMatches(allowlist, sender)
            <==> exists i :: 0 <= i < |allowlist| && StartsWith(sender, allowlist[i])
  {
    forall i | 0 <= i < |allowlist|
      ensures (allowlist[i] == Take(sender, |allowlist[i]|)) <==> StartsWith(sender, allowlist[i])
    {
      TakeIsPrefixTest(allowlist[i], sender);
    }
  }

  // ---------------------------------------------------------------------------
  // The RECEIVE chain

  /** Content that `validate` passes has a string sender, if any (needed where the
      prefix test runs); content that `validate` drops may carry any sender. */
  predicate EnvelopeSenderIsText(cfg: Config, env: Value) {
    WellFormedEnvelope(env) && Acceptable(cfg, ContentOf(env)) ==> SenderIsText(ContentOf(env).fields)
  }

  /** The RECEIVE hooks in ascending priority: validate (0), then check_sender (1),
      which only ever sees validate's output; a `None` from either drops the message. */
  function Receive(cfg: Config, listening: bool, env: Value): (r: Option<Value>)
    requires cfg.matching == Prefix ==> EnvelopeSenderIsText(cfg, env)
    ensures r.Some? ==> Validate(cfg, listening, env) == r
    ensures Validate(cfg, listening, env).None? ==> r.None?
  {
    match Validate(cfg, listening, env)
    case None => None
    case Some(content) => if cfg.screened then CheckSender(cfg, listening, content) else Some(content)
  }

  /** What survives the RECEIVE chain: the control token while listening (where the
      example honours it), or acceptable structured content from an allowed sender
      (where the example screens senders). Either way the handlers see the content. */
  lemma ReceiveAdmits(cfg: Config, listening: bool, env: Value)
    requires cfg.matching == Prefix ==> EnvelopeSenderIsText(cfg, env)
    ensures Receive(cfg, listening, env).Some? <==>
              WellFormedEnvelope(env)
              && (IsControl(cfg, listening, ContentOf(env))
                  || (Acceptable(cfg, ContentOf(env)) && (cfg.screened ==> Allowed(cfg, ContentOf(env).fields))))
    ensures Receive(cfg, listening, env).Some? ==> Receive(cfg, listening, env).value == ContentOf(env)
  {
  }

  /** Misaddressed content is dropped by `validate` before the prefix test could
      slice its sender, so a `None` sender there raises nothing. */
  lemma MisaddressedNoneSenderDropped(cfg: Config, listening: bool)
    requires cfg.addressed && cfg.agentId != "someone_else"
    ensures var env := Dict(map["remote_addr" := Str("1.2.3.4"),
                                "content" := Dict(map["message" := Str("hi"), "to" := Str("someone_else"), "from" := Null])]);
            EnvelopeSenderIsText(cfg, env) && Receive(cfg, listening, env).None?
  {
    var content := Dict(map["message" := Str("hi"), "to" := Str("someone_else"), "from" := Null]);
    assert !AddressedToUs(content.fields, cfg.agentId) by {
      assert content.fields["to"] == Str("someone_else");
    }
  }

  /** Content without a `to` key is dropped wherever `to` is filtered: the default ""
      is neither `None` nor a non-empty AGENT_ID. */
  lemma MissingAddressDropped(cfg: Config, listening: bool, env: Value)
    requires cfg.addressed && cfg.agentId != []
    requires WellFormedEnvelope(env) && ContentOf(env).Dict? && "to" !in ContentOf(env).fields
    ensures Validate(cfg, listening, env).None?
  {
  }

  // ---------------------------------------------------------------------------
  // SEND: sign

  /** The `sign` hook: a string becomes `{"message": s}`, a dict keeps its keys, and
      either gets "from" set to AGENT_ID; anything else is dropped. */
  function Sign(agentId: string, msg: Value): (r: Option<Value>)
    ensures r.Some? <==> msg.Str? || msg.Dict?
    ensures r.Some? ==> r.value.Dict? && "from" in r.value.fields
                        && r.value.fields["from"] == Str(agentId)
    ensures msg.Str? ==> r.value.fields.Keys == {"message", "from"}
                         && r.value.fields["message"] == msg
    ensures msg.Dict? ==> r.value.fields.Keys == msg.fields.Keys + {"from"}
                          && forall k :: k in msg.fields && k != "from" ==> r.value.fields[k] == msg.fields[k]
  {
    var normalised := if msg.Str? then Dict(map["message" := msg]) else msg;
    if !normalised.Dict? then None
    else Some(Dict(normalised.fields["from" := Str(agentId)]))
  }

  /** Signing an already signed message changes nothing. */
  lemma SignIdempotent(agentId: string, msg: Value)
    requires Sign(agentId, msg).Some?
    ensures Sign(agentId, Sign(agentId, msg).value) == Sign(agentId, msg)
  {
    var m := Sign(agentId, msg).value.fields;
    assert m["from" := Str(agentId)] == m;
  }
}
