# Summoner learning agents: a verified model of their decision logic

The `learn` examples 4 to 14 build, step by step, a client agent for the Summoner
network. Each agent is a set of callbacks that the flow engine calls:

- the RECEIVE hooks `validate` and `check_sender`, which filter inbound envelopes;
- the SEND hook `sign`, which stamps outbound payloads with the agent's id;
- the route handlers, which decide whether an edge of the agent's state graph fires
  (`Move(Trigger.ok)`) or not;
- `upload_states` and `download_states`, which exchange the agent's per-peer states
  with the engine;
- the senders: `clock`, the MOVE-gated senders, which drain the contact, ban and
  friend lists, and `reputation`.

Example 14 replaces the fixed phrases of examples 8 to 13 with a policy. Its parts:

- a cached language-model decision with a keyword fallback;
- a model-inferred or keyword flag;
- generated status texts;
- a dashboard of the peers it has seen.

This project restates that logic in Dafny and proves what it promises.

The modules:

- `Text` and `Values` give Python's string operations and untyped values the meaning the
  agents rely on (`startswith`, slicing, `split(sep)[1]`, `lower`, `strip`, `sorted`,
  `dict.get`, `json.dumps`, `str`).
- `Hooks` is the RECEIVE chain and `sign`.
  - A `Config` says how each example sets them up: whether `to` is filtered, whether
    the "/travel" control token passes while listening, whether senders are screened,
    the allowlist, and whether it is matched exactly (examples 6 to 9) or by prefix
    (examples 10 to 14).
- `Flow` holds the events, the decision edges and their phrases, and the phrase
  handlers.
- `Sync` covers the state exchange:
  - example 9's single state;
  - the per-peer `relations` of examples 10 and 11 (class `PeerTable`);
  - the `relations` and `outside_view` maps of examples 12 to 14 (class
    `ChannelTable`), keyed "to_me:" and "to_them:".
- `Outbox` is the class `Queues`: `contact_list`, `ban_list`, `friend_list` and
  `to_them_list`, the handlers that fill them, and the senders that drain them. It
  also proves the protocol between two agents: what one agent drains fires the
  matching edge on its peer.
- `Heuristics` is example 14's deterministic policy:
  - message text and cache key;
  - the keyword scores and flags;
  - the reading of a model reply;
  - the status-text fallbacks;
  - the dashboard rows.
- `EarlyExamples`, `Example9`, `PrefixMatching`, `Example13` and `Example14` hold each
  example's configuration-specific facts and the stateful agents of examples 9, 13
  and 14.

Things outside the agents become parameters:

- the language model's replies (a reply string per call);
- the clock (`now`);
- the random AGENT_ID suffix;
- the generated broadcast text.

## Model

| member | source | states |
|---|---|---|
| Text.Take | learn/example_10/agent.py:38 | `s[:n]` is a prefix of `s` of length `min(n, len(s))` |
| Text.TakeIsPrefixTest | learn/example_10/agent.py:38 | `p == s[:len(p)]` holds exactly when `s` starts with `p` |
| Text.StartsWith | learn/example_12/agent.py:175 | `key.startswith(p)` holds exactly when `p` is no longer than `key` and `key[:len(p)] == p` |
| Text.ContainsOccurs | learn/example_14/agent.py:137 | `w in t` holds exactly when `w` occurs at some index of `t` |
| Text.Find | learn/example_12/agent.py:176 | the first index where the separator occurs, or the length when it does not occur; no earlier match |
| Text.SplitSecond | learn/example_12/agent.py:176 | `key.split(sep)[1]` on a key starting with `sep` is a prefix of the text after `sep` |
| Text.Lower | learn/example_14/agent.py:132 | `lower()` keeps the length and lowers each ASCII letter in place |
| Text.Strip | learn/example_14/agent.py:223 | `strip()` gives the slice of the text with only white space before and after it, and no white space at either of its own ends |
| Text.StripEmpty | learn/example_14/agent.py:223 | `strip()` gives "" exactly when the text is all white space |
| Text.Sorted | learn/example_14/agent.py:310 | `sorted(ids)` lists every id of the set exactly once, in strictly ascending order |
| Text.Decimal | learn/example_14/agent.py:74 | `str(n)` of the random suffix is a non-empty string of decimal digits, without a leading zero, whose value is `n` |
| Values.Dumps | learn/example_14/agent.py:113 | `json.dumps(v, sort_keys=True)` is `null` for None, the quoted string for a string, the JSON text of a scalar or list, and for a dict a braced text, `{}` when empty, whose first entry is its least key |
| Values.PyStr | learn/example_14/agent.py:116-119 | `str(v)` is the string itself, "None", the printed text of a scalar or list, or (simplified) a dict's JSON text |
| Values.StrDiffersFromJson | learn/example_14/agent.py:113-116 | `str` and `json.dumps` differ for strings and None, and for other values exactly when their two texts differ: `True` against `true` |
| Values.Get | learn/example_10/agent.py:38 | `d.get(k, default)` is the entry when present and the default otherwise |
| Hooks.Validate | learn/example_13/agent.py:25-38 | what passes is the envelope's content; it is the control token while listening, or a dict with `from` addressed to everyone or to this agent; every such dict passes |
| Hooks.CheckSender | learn/example_13/agent.py:40-57 | content passes unchanged, exactly when it is the control token while listening or its sender is allowed (exact or prefix match) |
| Hooks.Allowed | learn/example_13/agent.py:40-57 | the allowlist test: an empty list admits nobody, only string senders pass, and a message without `from` passes only the prefix test of an empty entry |
| Hooks.SliceTestIsPrefixTest | learn/example_10/agent.py:36-47 | the slice comparison `s == sender[:len(s)]` over the allowlist is the same as a `startswith` test |
| Hooks.ExactAllowed | learn/example_9/agent.py:41-53 | the exact test admits precisely string senders that are listed |
| Hooks.Receive | learn/example_14/agent.py:468-508 | `check_sender` only sees `validate`'s output; a drop by `validate` is final |
| Hooks.ReceiveAdmits | learn/example_12/agent.py:29-57 | the chain admits exactly well-formed envelopes whose content is the control token while listening, or acceptable content from an allowed sender |
| Hooks.MisaddressedNoneSenderDropped | learn/example_14/agent.py:477 | misaddressed content with a `None` sender meets the chain's precondition and is dropped by `validate`, so the prefix test never slices it |
| Hooks.MissingAddressDropped | learn/example_7/agent.py:29 | with the `to` filter, content without a `to` key is dropped (its default "" is neither None nor AGENT_ID) |
| Hooks.Sign | learn/example_4/agent.py:61-82 | a string becomes `{"message": s}` and a dict keeps its other keys; both gain `from = AGENT_ID`; any other value is dropped |
| Hooks.SignIdempotent | learn/example_6/agent.py:101-108 | signing a signed payload changes nothing |
| EarlyExamples.SignedClock4 | learn/example_4/agent.py:54-82 | example 4's "hello" leaves as `{"message": "hello", "from": "ChangeMe_Agent_4"}` |
| EarlyExamples.SignedClock6 | learn/example_6/agent.py:94-108 | example 6's signed clock payload |
| EarlyExamples.SignedClock7 | learn/example_7/agent.py:99-119 | example 7's broadcast keeps `to = None` and gains `from` |
| EarlyExamples.SignedClock8 | learn/example_8/agent.py:140-156 | example 8's signed broadcast |
| EarlyExamples.ClockGreetsPeers8 | learn/example_8/agent.py:27-70 | example 8's signed broadcast passes another example 8 agent's hooks and fires its register->contact edge |
| EarlyExamples.Admission5 | learn/example_5/agent.py:19-52 | example 5 admits exactly dict content with `from`, and hands on the content |
| EarlyExamples.Admission6 | learn/example_6/agent.py:19-45 | example 6 admits exactly dict content from "ChangeMe_Agent_6", with no `to` filter |
| EarlyExamples.Admission7 | learn/example_7/agent.py:19-56 | example 7 admits broadcast or direct content from agents 6 and 7 |
| EarlyExamples.Admission8 | learn/example_8/agent.py:27-55 | example 8 admits broadcast or direct content from agents 6 to 8 |
| EarlyExamples.Download8 | learn/example_8/agent.py:101-109 | example 8's `download_states` leaves `state` as it was |
| EarlyExamples.AlwaysRegister8 | learn/example_8/agent.py:57-109 | after any sequence of downloads, example 8 still publishes "register" |
| Flow.OnNode | learn/example_8/agent.py:112-138 | the node handlers report `Test(Trigger.ok)` whatever the message |
| Flow.OnPhrase | learn/example_8/agent.py:66-98 | an edge handler moves exactly when the message text is its phrase, and yields no event otherwise |
| Flow.PhrasesDistinct | learn/example_8/agent.py:66-98 | the six fixed phrases are pairwise different, so a phrase names its edge |
| Flow.PhraseEdgesExclusive | learn/example_12/agent.py:98-164 | two edges leaving the same node never both fire on one message |
| Sync.Lookup | learn/example_14/agent.py:630 | `m.get(k, "")` |
| Sync.FirstDiffering | learn/example_9/agent.py:91 | none exactly when every candidate equals the current state; otherwise a candidate that differs, with every earlier candidate equal to the current one |
| Sync.Adopt | learn/example_9/agent.py:91-98 | the state stays the same exactly when every candidate equals it; otherwise it becomes the first candidate that differs from it |
| Sync.AdoptAlternates | learn/example_9/agent.py:84-105 | offering `[a, b]` twice flips the state from `a` to `b` and back: adoption is not idempotent |
| Sync.SenderId | learn/example_10/agent.py:53-54 | the sender is used exactly when `from` is a non-empty string |
| Sync.Initialise | learn/example_10/agent.py:56 | `setdefault` adds the key with the default when missing and never overwrites |
| Sync.InitialiseIdempotent | learn/example_10/agent.py:56 | a second `setdefault` changes nothing |
| Sync.UploadSingle | learn/example_10/agent.py:50-58 | no sender: nothing published, no change; otherwise the sender is initialised to "register" and its state published under its id |
| Sync.UploadSingleIdempotent | learn/example_10/agent.py:50-58 | repeating an upload publishes the same and changes nothing further |
| Sync.ApplyPeer | learn/example_10/agent.py:79-83 | one loop step: only the named peer may change, to the adopted state |
| Sync.DownloadPeers | learn/example_10/agent.py:77-85 | when every offer names a known peer, no peer is added |
| Sync.DownloadPeersAdopts | learn/example_10/agent.py:79-83 | after the whole download, each offered peer holds the first of its candidates that differs from its old state (its old state when none does) |
| Sync.DownloadPeersFrame | learn/example_10/agent.py:77-85 | a peer no offer names keeps its state, and is neither added nor removed |
| Sync.DownloadPeersFromOffers | learn/example_11/agent.py:108-118 | after a download each state is the old one or a candidate offered for that peer |
| Sync.DualSnapshot | learn/example_12/agent.py:90 | the published dict has exactly the keys "to_me:" + id and "to_them:" + id, with the two states |
| Sync.UploadDual | learn/example_12/agent.py:60-90 | no sender: nothing; otherwise "register" and "neutral" by default, and both states published |
| Sync.UploadDualStable | learn/example_12/agent.py:60-90 | upload never overwrites a known peer's states and is idempotent |
| Sync.PeerOf | learn/example_12/agent.py:174-183 | the peer id is what follows the channel prefix, so prefix + id rebuilds the key |
| Sync.PeerOfAsWritten | learn/example_12/agent.py:176 | `split(prefix)[1]` yields a prefix of the intended peer id |
| Sync.ChannelPrefixesExclusive | learn/example_12/agent.py:175-181 | no key starts with both "to_me:" and "to_them:" |
| Sync.ApplyChannelKey | learn/example_14/agent.py:626-640 | a "to_me:" key adopts into `relations`, a "to_them:" key into `outside_view`, any other key is ignored |
| Sync.Normalise | learn/example_13/agent.py:147 | a bare list is read as `{"default": list}`; a dict is kept |
| Sync.FlatDownloadIsNoop | learn/example_13/agent.py:142-166 | a bare list of states changes neither view |
| Sync.UnprefixedOffersIgnored | learn/example_12/agent.py:167-191 | offers under other keys change nothing |
| Sync.EchoIsNoop | learn/example_12/agent.py:60-191 | offering back exactly what was uploaded changes nothing |
| Sync.DownloadChannels | learn/example_12/agent.py:167-191 | the prefixed download loop over the offers never removes a peer from either view |
| Sync.DownloadChannelsKeys | learn/example_12/agent.py:167-191 | when every named peer is known, neither view gains or loses a key |
| Sync.ChannelsSeparate | learn/example_12/agent.py:167-191 | offers without "to_them:" leave `outside_view` alone, and offers without "to_me:" leave `relations` alone |
| Sync.RelationFromOffers | learn/example_12/agent.py:167-191 | each `relations` entry after a download is the old one or a candidate offered under its "to_me:" key |
| Sync.DownloadChannelsFrame | learn/example_14/agent.py:626-640 | a peer whose "to_me:" (or "to_them:") key is not offered keeps its `relations` (or `outside_view`) entry, and is neither added nor removed |
| Sync.RelationAdopts | learn/example_14/agent.py:626-632 | after the whole download, a peer offered under "to_me:" holds in `relations` the first candidate that differs from its old entry (`""` when missing), or the old entry when none does |
| Sync.OutsideViewAdopts | learn/example_14/agent.py:634-640 | after the whole download, a peer offered under "to_them:" holds in `outside_view` the first candidate that differs from its old entry (`""` when missing), or the old entry when none does |
| Sync.DownloadThenUpload | learn/example_12/agent.py:60-191 | after one offer per channel, the next upload publishes the two adopted states |
| Sync.PeerOfInvertsKey | learn/example_12/agent.py:90 | the intended extraction recovers the id `upload_states` put in the key |
| Sync.AsWrittenAgrees | learn/example_12/agent.py:176 | `split` gives the intended id for every id that does not contain the prefix |
| Sync.AsWrittenCutsAt | learn/example_12/agent.py:176 | `split` cuts the id at its first inner occurrence of the prefix |
| Sync.FirstInnerPrefix | learn/example_14/agent.py:629 | in "ChangeMe_Agent_6to_me:x" the first inner "to_me:" is at index 16 |
| Sync.AsWrittenMisfilesPeer | learn/example_14/agent.py:627-633 | the key of peer "ChangeMe_Agent_6to_me:x" is filed under "ChangeMe_Agent_6" |
| Sync.PeerTable.constructor | learn/example_10/agent.py:10 | `relations` starts empty |
| Sync.PeerTable.Upload | learn/example_11/agent.py:57-67 | the table and the result are those of `UploadSingle` |
| Sync.PeerTable.Download | learn/example_11/agent.py:108-118 | the loop over the offers gives `DownloadPeers` of the old table and adds no peer; each offered peer ends with the first candidate that differs from its old state; every offered key must be known |
| Sync.ChannelTable.constructor | learn/example_12/agent.py:10-11 | both views start empty |
| Sync.ChannelTable.Upload | learn/example_12/agent.py:60-90 | the views and the result are those of `UploadDual` |
| Sync.ChannelTable.Download | learn/example_14/agent.py:626-640 | the loop gives `DownloadChannels` of the old views; each peer offered on a channel ends, in that channel's view, with the first candidate that differs from its old entry; when every named peer is known, no key is added |
| Outbox.Direct | learn/example_11/agent.py:164 | `{"to": id, "message": text}` has exactly those two keys |
| Outbox.DirectMessages | learn/example_11/agent.py:153-173 | one message per queued id, in order, each to that id with the text |
| Outbox.RecipientsOfDirectMessages | learn/example_11/agent.py:153-195 | a drain reaches exactly the queued peers, once each, in queue order |
| Outbox.ReputationMessages | learn/example_12/agent.py:230-249 | one message per verdict: "I like you" for good, "I don't like you" for bad, to the verdict's peer |
| Outbox.Mirror | learn/example_12/agent.py:134-164 | a drained contact, ban or friendship lands on the peer-view edge whose phrase is the drained text |
| Outbox.Answer | learn/example_12/agent.py:98-126 | a reputation message lands on the own edge whose phrase is the reputation text |
| Outbox.DrainFiresMirror | learn/example_12/agent.py:256-284 | a signed drained message fires exactly the mirrored edge on the peer, and no sibling edge; that edge records bad for a ban, good otherwise |
| Outbox.ReputationFiresAnswer | learn/example_12/agent.py:230-249 | a signed reputation message fires contact->friend for good and register->ban for bad |
| Outbox.Queues.constructor | learn/example_12/agent.py:97-128 | the four lists start empty |
| Outbox.Queues.Enqueue | learn/example_14/agent.py:545-584 | the sender is appended to the list of its edge; the other lists are untouched |
| Outbox.Queues.Record | learn/example_14/agent.py:587-616 | a verdict is appended to `to_them_list`; the own lists are untouched |
| Outbox.Queues.OnOwnEdge | learn/example_11/agent.py:74-105 | on its phrase the handler queues the sender and moves, otherwise nothing changes |
| Outbox.Queues.OnPeerEdge | learn/example_12/agent.py:134-164 | on its phrase the handler records the edge's verdict about the sender and moves, otherwise nothing changes |
| Outbox.Queues.Drain | learn/example_11/agent.py:153-195 | the drain returns one direct message per queued peer and leaves that list empty; the others are untouched |
| Heuristics.MsgText | learn/example_14/agent.py:107-116 | a string "message" is the text, a missing one is "", any other "message" is its JSON text, anything that is not a dict is its `str` text |
| Heuristics.BooleanMessageText | learn/example_14/agent.py:107-119 | a boolean "message" reads as `true`, so it shares a cache slot with the string "true" from the same sender |
| Heuristics.CacheKey | learn/example_14/agent.py:118-119 | the key starts with the kind and a bar, holds the sender's text right after it and ends with the message text, and is exactly as long as the three plus two bars |
| Heuristics.CacheKeyInjective | learn/example_14/agent.py:118-119 | for bar-free kinds and senders, equal cache keys mean equal kind, sender and text |
| Heuristics.CountIn | learn/example_14/agent.py:136-141 | the number of listed words found is at most the number of words, and zero exactly when none occurs |
| Heuristics.Score | learn/example_14/agent.py:133-141 | a positive score needs a positive word, a negative score a negative word, and a text with neither scores zero |
| Heuristics.ScoreBounds | learn/example_14/agent.py:135-141 | the score lies between -2 times the negative words and the number of positive words |
| Heuristics.MoveVerdict | learn/example_14/agent.py:143-149 | the decision is "move" or "stay"; register->contact, contact->friend, good->very_good and neutral->good move iff the score is at least 1; register->ban and neutral->bad move iff it is at most -1 |
| Heuristics.FallbackMove | learn/example_14/agent.py:131-149 | "move" or "stay"; approaching edges move iff the score is at least 1 and only on a positive word, avoiding edges iff it is at most -1 and only on a negative word; a message with neither kind of word stays |
| Heuristics.KeywordScore | learn/example_14/agent.py:135-141 | the two scoring loops compute one point per positive word present minus two per negative word present |
| Heuristics.FallbackMoveDecision | learn/example_14/agent.py:131-149 | the two scoring loops and the table yield the specified fallback, "move" or "stay" |
| Heuristics.OpposedKindsExclusive | learn/example_14/agent.py:131-149 | the fallback never moves both register->contact and register->ban, nor both neutral->good and neutral->bad, on one message |
| Heuristics.FallbackFlag | learn/example_14/agent.py:151-157 | "bad" iff a bad word occurs; "good" iff a good word and no bad word; "neutral" otherwise |
| Heuristics.Token | learn/example_14/agent.py:223 | `reply.strip().lower()` is no longer than the reply, empty exactly when the reply is all white space, and has no upper-case ASCII letter |
| Heuristics.InferFlag | learn/example_14/agent.py:230-245 | a keyword flag without the model; with it, the reply's token when valid, else the keyword flag |
| Heuristics.FreshDecision | learn/example_14/agent.py:223-225 | the reply's token when it is move or stay, the keyword fallback otherwise |
| Heuristics.StatusMessage | learn/example_14/agent.py:280-302 | the stripped reply if non-empty, else the fixed text for the kind; never empty |
| Heuristics.KindOf | learn/example_14/agent.py:292-302 | a `kind` string names one of the five known kinds exactly when it is that name, and any other string is an unknown kind carrying that name |
| Heuristics.FixedText | learn/example_14/agent.py:291-302 | every kind, including an unknown one ("Acknowledged."), has a non-empty fixed text |
| Heuristics.RowsOf | learn/example_14/agent.py:310-317 | one row per id, in order |
| Heuristics.Rows | learn/example_14/agent.py:304-317 | one row per dashboard id, ascending by id, each the id's row |
| Heuristics.EveryIdHasRow | learn/example_14/agent.py:307-310 | every id in either view or seen by `validate` has a row |
| Heuristics.RowShowsViews | learn/example_14/agent.py:311-317 | a row shows the two views' states and the last message, each "" when absent, and a last-seen age exactly for seen ids |
| Example9.Agent.constructor | learn/example_9/agent.py:56 | `state` starts as "register" |
| Example9.Agent.UploadStates | learn/example_9/agent.py:58-62 | the current state is published |
| Example9.Agent.DownloadStates | learn/example_9/agent.py:84-105 | the state adopts the first offered state that differs from it |
| Example9.Admission9 | learn/example_9/agent.py:27-53 | example 9 admits broadcast or direct content from agents 6 to 9, matched exactly |
| PrefixMatching.SuffixedSiblingAdmitted | learn/example_10/agent.py:36-47 | under prefix matching, a broadcast from any suffixed id of a listed family passes unchanged |
| PrefixMatching.Example14AgentsHearEachOther | learn/example_14/agent.py:490-508 | every example 14 agent admits every other's broadcasts, whatever the suffixes |
| PrefixMatching.ExactRejectsSuffixed | learn/example_9/agent.py:41-53 | exact matching drops every suffixed id |
| PrefixMatching.ListedPrefixSuffices | learn/example_12/agent.py:42-57 | an id that merely starts with a listed entry, such as "ChangeMe_Agent_6to_me:x", is admitted |
| Example13.Agent.constructor | learn/example_13/agent.py:10-12 | listening, with empty views and lists |
| Example13.Agent.OnTravel | learn/example_13/agent.py:78-86 | moves exactly on "/travel" while listening, which ends the phase; nothing else changes `listening` |
| Example13.Agent.UploadStates | learn/example_13/agent.py:60-76 | "listen" with no change while listening, the dual upload afterwards |
| Example13.Agent.DownloadStates | learn/example_13/agent.py:142-166 | no change while listening; afterwards the prefixed download of the normalised offers, adding no key |
| Example13.Agent.Clock | learn/example_13/agent.py:189-197 | silent exactly while listening, a "Hello" broadcast otherwise |
| Example13.Agent.Reputation | learn/example_13/agent.py:199-211 | nothing while listening, one message per verdict afterwards |
| Example13.TravelAdmission | learn/example_13/agent.py:25-57 | "/travel" passes both hooks exactly while listening |
| Example14.Remember | learn/example_14/agent.py:207-227 | a cached key returns its entry and leaves the cache alone; a new key returns the fresh decision and adds exactly that entry |
| Example14.DecideFresh | learn/example_14/agent.py:223-224 | the uncached path yields `FreshDecision` |
| Example14.Decide | learn/example_14/agent.py:205-228 | a cached key answers from the cache; a new key is decided fresh and cached; no entry is overwritten; the cache stays move/stay |
| Example14.DecisionSticky | learn/example_14/agent.py:205-228 | once decided, the same kind, sender and text get the same decision whatever the model replies |
| Example14.Report | learn/example_14/agent.py:690-694 | one reputation message: keys "to" and "message", sent to the verdict's peer, with the stripped reply or, when it is blank, the verdict's fixed text |
| Example14.StatusReports | learn/example_14/agent.py:689-695 | one message per verdict |
| Example14.StatusReportsShape | learn/example_14/agent.py:680-696 | each reputation message goes to its verdict's peer with a non-empty text, the fixed flag text when the reply is blank |
| Example14.StatusReportsAt | learn/example_14/agent.py:689-695 | the `i`th reputation message is the report of the `i`th verdict with the `i`th reply, so the messages follow the verdicts in order |
| Example14.BuildReports | learn/example_14/agent.py:689-695 | the loop yields one message per verdict, in order: `StatusReports` |
| Example14.SeenSender | learn/example_14/agent.py:483-486 | the recorded sender is `from` when it is a non-empty string |
| Example14.BuildRows | learn/example_14/agent.py:309-317 | the row loop yields `RowsOf` the ids |
| Example14.Agent.constructor | learn/example_14/agent.py:70-97 | listening, with empty cache, views, lists and dashboard |
| Example14.Agent.Validate | learn/example_14/agent.py:468-488 | the result is example 14's `validate`; a passed sender's time and text are recorded, nothing else |
| Example14.Agent.Receive | learn/example_14/agent.py:468-508 | the result is the RECEIVE chain; when `validate` passes content with a sender, that sender's last-seen time and last message are recorded, even if `check_sender` drops it; otherwise neither changes |
| Example14.Agent.DecideMove | learn/example_14/agent.py:205-228 | the decision and the new cache are those of `Decide`; the answer is "move" or "stay" and the cache keeps holding only those |
| Example14.Agent.OnDecisionEdge | learn/example_14/agent.py:545-616 | moves exactly when the decision is "move", then queues the sender or records a good verdict; `from` is needed only on a move; the cache keeps holding only "move" or "stay" |
| Example14.Agent.ActOnDecision | learn/example_14/agent.py:545-616 | once decided, a move queues the sender on an own edge or records a good verdict on good->very_good, and every other list is unchanged; no move changes nothing |
| Example14.Agent.OnFlagEdge | learn/example_14/agent.py:587-603 | moves exactly when the flag matches the edge, then records that verdict; `from` is needed only then |
| Example14.Agent.RefreshDashboard | learn/example_14/agent.py:304-323 | the dashboard shows `listening` and `Rows` of the current state |
| Example14.Agent.OnTravel | learn/example_14/agent.py:534-542 | as example 13, refreshing the dashboard when the phase ends |
| Example14.Agent.UploadStates | learn/example_14/agent.py:510-532 | as example 13, refreshing the dashboard on every path |
| Example14.Agent.DownloadStates | learn/example_14/agent.py:618-647 | no change while listening; otherwise `DownloadChannels` of the normalised offers; dashboard refreshed |
| Example14.Agent.Clock | learn/example_14/agent.py:669-678 | silent exactly while listening, else a broadcast of the generated text |
| Example14.Agent.Reputation | learn/example_14/agent.py:680-696 | nothing while listening; otherwise the loop yields `StatusReports` of the verdicts |
| Example14.Agent.Drain | learn/example_14/agent.py:698-726 | the kind's generated text goes to every queued peer, and that list is emptied |
| Example14.RejectedSenderStillSeen | learn/example_14/agent.py:468-508 | content from "Mallory" passes `validate`, is recorded as seen, and is then dropped by `check_sender` |

## Left out

- The flow engine and its dispatch are not part of this model. This covers which
  handler runs for which state, the `on_actions`/`on_triggers` gating, `multi=True`,
  the ordering of hooks by priority beyond the two-hook chain, and the graph's arrow
  syntax. The handlers are modelled as callables with their inputs.
- Concurrency is not modelled: `asyncio` locks, `sleep` and `threading`. Each
  operation is modelled as one atomic step.
- The visualiser (`viz.push_states`), logging, `print` and the dashboard HTTP server
  are I/O with no effect on the agents' decisions. Only the dashboard snapshot's
  `listening` flag and rows are modelled. `agent_id` is fixed, and `outside_goal`
  comes from the language model.
- The language model calls are not modelled: `llm_text`, the curl tools and the
  `openclaw` subprocess. Each reply is an input string. `generate_outside_goal`,
  `_fallback_goal` and `generate_broadcast_message` pick texts with `random.choice`
  or from the model, so the clock's broadcast text is an input.
- `random.randint` for AGENT_ID is an input: the suffix, constrained to 0..1000. The
  visualiser port is left out.
- `client.travel_to` (network) is left out. The handler's state change and event are
  modelled.
- Time is an integer `now`. Python's float seconds and `int(...)` truncation of the
  age are not modelled.
- Text handling is simplified:
  - Only ASCII letters are lowered and only ASCII white space is stripped.
  - `json.dumps` does not escape quotes or non-ASCII characters.
  - `str()` of a dict is rendered as its JSON text, not Python's repr.
  - `Value.Other` (a number, a boolean, a list) carries both texts, what `str()`
    prints and what `json.dumps` writes. Both texts are part of the input value, so
    a list is not rendered element by element. A value `json.dumps` cannot serialise, which
    `_msg_text` prints with `str()` instead, is given a JSON text equal to its
    printed one. A dict holding such a value is still rendered as JSON.
  - Flow nodes are compared by their text, as the agents do with `str(s)`.
- Crash paths are not modelled. They are preconditions instead, one per case:
  - `msg["message"]` on content without "message";
  - `msg["from"]` on a message without one;
  - `relations[peer]` on an unknown peer in examples 10 to 13;
  - a non-string `from` (None included) under prefix matching, on content that
    `validate` passes; content that `validate` drops may carry any sender. The prefix slice
    raises `TypeError` for None and for a number and silently drops a list, and
    `Value.Other` does not tell a number from a list. Under exact matching a
    non-string `from` is simply not listed, so nothing raises there. A hashable
    non-string sender (an int or a bool) would also be accepted by `setdefault` as a
    table key; `Sync.SenderTyped` excludes it, since `from` is a peer id.
- Heuristics.MoveVerdict: takes the decision edge, not its kind string. Every call
  passes the kind of one of the six edges, so the table's final `return "stay"` for
  any other kind is not modelled.
- Sync.ChannelTable.Download (examples 12 to 14) uses `Sync.PeerOf` instead of
  `key.split(prefix)[1]` (see Findings). Sync.PeerTable keys by the raw sender, as
  examples 10 and 11 do.
- Example 12's agent is not a class of its own. Its state and behaviour are exactly:
  - a `Sync.ChannelTable` (download restricted to `Sync.KnownPeers`);
  - an `Outbox.Queues`;
  - `Outbox.ReputationMessages`.
- Examples 10 and 11 are not classes of their own either:
  - example 10 is a `Sync.PeerTable` with the phrase handlers;
  - example 11 adds `Outbox.Queues`.
- Examples 4 to 8 keep a `state` that is never reassigned. It is modelled as the
  constant "register".

## Findings

| source | as written | input that shows it | evidently intended | confidence | as-written member | corrected member |
|---|---|---|---|---|---|---|
| learn/example_14/agent.py:629 (also learn/example_12/agent.py:176, learn/example_13/agent.py:151, and their "to_them:" lines) | `download_states` extracts the peer with `key.split("to_me:")[1]`, which cuts the id at any later occurrence of the prefix | a peer "ChangeMe_Agent_6to_me:x" passes the prefix allowlist; its key "to_me:ChangeMe_Agent_6to_me:x" is filed under "ChangeMe_Agent_6". Example 14 then writes the wrong entry; examples 12 and 13 raise `KeyError` when the cut id is unknown, and overwrite that peer's entry when it is known | the peer is everything after the channel prefix, the inverse of the key `upload_states` builds | not executed | Sync.AsWrittenMisfilesPeer | Sync.PeerOfInvertsKey |
