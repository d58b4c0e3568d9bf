/** Per-peer state synchronisation: what `upload_states` publishes and how
    `download_states` adopts the states the flow engine offers back. States are
    kept as their text (`str(node)`), which is all the agents compare. */
module Sync {
  import opened Text
  import opened Values

  /** `m.get(k, "")`. */
  function Lookup(m: map<string, string>, k: string): (r: string)
    ensures k in m ==> r == m[k]
    ensures k !in m ==> r == ""
  {
    if k in m then m[k] else ""
  }

  // ---------------------------------------------------------------------------
  // Adopting the first differing candidate

  /** `[s for s in candidates if str(s) != str(current)][0]`, if that list is non-empty. */
  function FirstDiffering(cands: seq<string>, cur: string): (r: Option<string>)
    ensures r.None? <==> forall i :: 0 <= i < |cands| ==> cands[i] == cur
    ensures r.Some? ==> (r.value != cur
                         && exists i :: 0 <= i < |cands| && cands[i] == r.value
                                        && forall j :: 0 <= j < i ==> cands[j] == cur)
  {
    if cands == [] then None
    else if cands[0] != cur then Some(cands[0])
    else
      var rest := FirstDiffering(cands[1..], cur);
      if rest.Some? then ShiftWitness(cands, cur, rest.value); rest else rest
  }

  lemma ShiftWitness(cands: seq<string>, cur: string, v: string)
    requires cands != [] && cands[0] == cur
    requires exists i :: 0 <= i < |cands[1..]| && cands[1..][i] == v
                         && forall j :: 0 <= j < i ==> cands[1..][j] == cur
    ensures exists i :: 0 <= i < |cands| && cands[i] == v && forall j :: 0 <= j < i ==> cands[j] == cur
  {
    var i :| 0 <= i < |cands[1..]| && cands[1..][i] == v
             && forall j :: 0 <= j < i ==> cands[1..][j] == cur;
    assert cands[i + 1] == v;
    assert forall j :: 0 <= j < i + 1 ==> cands[j] == cur by {
      forall j | 0 <= j < i + 1 ensures cands[j] == cur {
        if j > 0 { assert cands[j] == cands[1..][j - 1]; }
      }
    }
  }

  /** The value a stored state takes after a download offers `cands`. */
  function Adopt(cur: string, cands: seq<string>): (r: string)
    ensures r == cur || r in cands
    ensures (forall i :: 0 <= i < |cands| ==> cands[i] == cur) <==> r == cur
    ensures r != cur ==> exists i :: 0 <= i < |cands| && cands[i] == r
                                     && forall j :: 0 <= j < i ==> cands[j] == cur
  {
    match FirstDiffering(cands, cur)
    case None => cur
    case Some(v) => v
  }

  /** Adoption is not idempotent: two distinct candidates make the state alternate
      between them on repeated downloads of the same offer. */
  lemma AdoptAlternates(a: string, b: string)
    requires a != b
    ensures Adopt(a, [a, b]) == b && Adopt(Adopt(a, [a, b]), [a, b]) == a
  {
    assert [a, b][1..] == [b];
    assert FirstDiffering([b], a) == Some(b);
    assert FirstDiffering([a, b], a) == Some(b);
  }

  // ---------------------------------------------------------------------------
  // Upload

  /** What `upload_states` returns: nothing, one state (example 9, or "listen" in
      examples 13 and 14), or a dict of states keyed by peer. */
  datatype Upload = Nothing | Single(state: string) | Keyed(states: map<string, string>)

  /** `from`, where present, is `None` or a string (the ids the agents use as keys). */
  predicate SenderTyped(msg: map<string, Value>) {
    "from" in msg ==> msg["from"].Null? || msg["from"].Str?
  }

  /** `msg.get("from")`, when it is truthy. */
  function SenderId(msg: map<string, Value>): (r: Option<string>)
    requires SenderTyped(msg)
    ensures r.Some? <==> "from" in msg && msg["from"].Str? && msg["from"].s != ""
    ensures r.Some? ==> msg["from"] == Str(r.value)
  {
    match Get(msg, "from", Null)
    case Str(s) => if s == "" then None else Some(s)
    case _ => None
  }

  /** `m.setdefault(s, init)`: an existing entry is never overwritten. */
  function Initialise(m: map<string, string>, s: string, init: string): (r: map<string, string>)
    ensures s in r && r.Keys == m.Keys + {s}
    ensures s in m ==> r == m
    ensures s !in m ==> r[s] == init
    ensures forall k :: k in m ==> r[k] == m[k]
  {
    if s in m then m else m[s := init]
  }

  lemma {:induction false} InitialiseIdempotent(m: map<string, string>, s: string, init: string)
    ensures Initialise(Initialise(m, s, init), s, init) == Initialise(m, s, init)
  {
    assert s in Initialise(m, s, init);
  }

  /** `upload_states` of examples 10 and 11: a truthy sender is initialised to
      "register" if new, and its state is published under its id. */
  function UploadSingle(rel: map<string, string>, msg: map<string, Value>): (r: (Upload, map<string, string>))
    requires SenderTyped(msg)
    ensures SenderId(msg).None? ==> r == (Nothing, rel)
    ensures SenderId(msg).Some? ==>
              var s := SenderId(msg).value;
              r.1 == Initialise(rel, s, "register") && r.0 == Keyed(map[s := r.1[s]])
  {
    match SenderId(msg)
    case None => (Nothing, rel)
    case Some(s) =>
      var rel' := Initialise(rel, s, "register");
      (Keyed(map[s := rel'[s]]), rel')
  }

  /** A second upload for the same message publishes the same states and changes
      nothing further. */
  lemma UploadSingleIdempotent(rel: map<string, string>, msg: map<string, Value>)
    requires SenderTyped(msg)
    ensures UploadSingle(UploadSingle(rel, msg).1, msg) == UploadSingle(rel, msg)
  {
    if SenderId(msg).Some? {
      InitialiseIdempotent(rel, SenderId(msg).value, "register");
    }
  }

  // ---------------------------------------------------------------------------
  // Download into one map (examples 10 and 11)

  /** One `(key, candidates)` entry of the downloaded dict. */
  type Offer = (string, seq<string>)

  /** No other entry carries the key of entry `i`, as in a dict. */
  predicate UniqueKey(offers: seq<Offer>, i: nat)
    requires i < |offers|
  {
    forall j :: 0 <= j < |offers| && j != i ==> offers[j].0 != offers[i].0
  }

  /** One iteration of the download loop: the peer's state adopts the first candidate
      that differs from it. */
  function ApplyPeer(rel: map<string, string>, peer: string, cands: seq<string>): (r: map<string, string>)
    ensures r.Keys == rel.Keys + (if FirstDiffering(cands, Lookup(rel, peer)).Some? then {peer} else {})
    ensures peer in r ==> r[peer] == Adopt(Lookup(rel, peer), cands)
    ensures forall k :: k in rel && k != peer ==> r[k] == rel[k]
    ensures Lookup(r, peer) == Adopt(Lookup(rel, peer), cands)
  {
    match FirstDiffering(cands, Lookup(rel, peer))
    case None => rel
    case Some(v) => rel[peer := v]
  }

  /** The download loop over the offers, in order. */
  function DownloadPeers(rel: map<string, string>, offers: seq<Offer>): (r: map<string, string>)
    ensures (forall i :: 0 <= i < |offers| ==> offers[i].0 in rel) ==> r.Keys == rel.Keys
    decreases |offers|
  {
    if offers == [] then rel
    else
      var last := offers[|offers| - 1];
      var before := DownloadPeers(rel, offers[..|offers| - 1]);
      assert forall i :: 0 <= i < |offers| - 1 ==> offers[..|offers| - 1][i] == offers[i];
      ApplyPeer(before, last.0, last.1)
  }

  /** The download over the first `i + 1` offers is one more loop step. */
  lemma DownloadPeersStep(rel: map<string, string>, offers: seq<Offer>, i: nat)
    requires i < |offers|
    ensures DownloadPeers(rel, offers[..i + 1]) == ApplyPeer(DownloadPeers(rel, offers[..i]), offers[i].0, offers[i].1)
  {
    assert offers[..i + 1][..i] == offers[..i];
  }

  /** A peer that no offer names keeps its state, and is present afterwards exactly
      when it was before. */
  lemma {:induction false} DownloadPeersFrame(rel: map<string, string>, offers: seq<Offer>, k: string)
    requires forall i :: 0 <= i < |offers| ==> offers[i].0 != k
    ensures (k in DownloadPeers(rel, offers) <==> k in rel)
    ensures Lookup(DownloadPeers(rel, offers), k) == Lookup(rel, k)
    decreases |offers|
  {
    if offers != [] {
      assert forall i :: 0 <= i < |offers| - 1 ==> offers[..|offers| - 1][i] == offers[i];
      DownloadPeersFrame(rel, offers[..|offers| - 1], k);
    }
  }

  /** A peer offered under exactly one key ends the download with the first of its
      candidates that differs from the state it had ("" for a peer not yet known). */
  lemma {:induction false} DownloadPeersAdopts(rel: map<string, string>, offers: seq<Offer>, i: nat)
    requires i < |offers|
    requires UniqueKey(offers, i)
    ensures Lookup(DownloadPeers(rel, offers), offers[i].0) == Adopt(Lookup(rel, offers[i].0), offers[i].1)
    decreases |offers|
  {
    var n := |offers| - 1;
    var init := offers[..n];
    DownloadPeersLast(rel, offers, offers[i].0);
    if i == n {
      assert forall j :: 0 <= j < |init| ==> init[j].0 != offers[i].0 by {
        assert forall j :: 0 <= j < |init| ==> init[j] == offers[j];
      }
      DownloadPeersFrame(rel, init, offers[i].0);
    } else {
      assert UniqueKey(init, i) && init[i] == offers[i] by {
        assert forall j :: 0 <= j < |init| ==> init[j] == offers[j];
      }
      DownloadPeersAdopts(rel, init, i);
    }
  }

  /** The last offer changes only the peer it names, to the adopted state. */
  lemma DownloadPeersLast(rel: map<string, string>, offers: seq<Offer>, k: string)
    requires offers != []
    ensures var n := |offers| - 1;
            var before := DownloadPeers(rel, offers[..n]);
            Lookup(DownloadPeers(rel, offers), k)
            == if k == offers[n].0 then Adopt(Lookup(before, k), offers[n].1) else Lookup(before, k)
  {
  }

  /** Where every offered peer is known, each peer offered under one key ends with the
      first of its candidates that differs from its old state. */
  lemma KnownPeersAdopt(rel: map<string, string>, offers: seq<Offer>)
    requires forall i :: 0 <= i < |offers| ==> offers[i].0 in rel
    ensures forall i :: 0 <= i < |offers| && UniqueKey(offers, i) ==>
              offers[i].0 in DownloadPeers(rel, offers)
              && DownloadPeers(rel, offers)[offers[i].0] == Adopt(rel[offers[i].0], offers[i].1)
  {
    forall i | 0 <= i < |offers| && UniqueKey(offers, i)
      ensures offers[i].0 in DownloadPeers(rel, offers)
              && DownloadPeers(rel, offers)[offers[i].0] == Adopt(rel[offers[i].0], offers[i].1)
    {
      DownloadPeersAdopts(rel, offers, i);
    }
  }

  /** Every state after a download is the one it had or one of the candidates offered
      for that peer. */
  lemma {:induction false} DownloadPeersFromOffers(rel: map<string, string>, offers: seq<Offer>, k: string)
    requires k in DownloadPeers(rel, offers)
    ensures (k in rel && DownloadPeers(rel, offers)[k] == rel[k])
            || exists i :: 0 <= i < |offers| && offers[i].0 == k && DownloadPeers(rel, offers)[k] in offers[i].1
    decreases |offers|
  {
    if offers != [] {
      var init := offers[..|offers| - 1];
      var last := offers[|offers| - 1];
      var before := DownloadPeers(rel, init);
      assert forall i :: 0 <= i < |init| ==> init[i] == offers[i];
      if k == last.0 && DownloadPeers(rel, offers)[k] in last.1 {
      } else if k in before {
        DownloadPeersFromOffers(rel, init, k);
      }
    }
  }

  // ---------------------------------------------------------------------------
  // Download into two maps by key prefix (examples 12 to 14)

  const ToMe: string := "to_me:"
  const ToThem: string := "to_them:"

  /** `relations` (how the agent sees each peer) and `outside_view` (how each peer
      sees the agent). */
  datatype Views = Views(toMe: map<string, string>, toThem: map<string, string>)

  /** The two keys `upload_states` publishes for a peer. */
  function DualSnapshot(v: Views, s: string): (r: map<string, string>)
    requires s in v.toMe && s in v.toThem
    ensures r.Keys == {ToMe + s, ToThem + s}
    ensures r[ToMe + s] == v.toMe[s] && r[ToThem + s] == v.toThem[s]
  {
    assert (ToMe + s)[3] != (ToThem + s)[3];
    map[ToMe + s := v.toMe[s], ToThem + s := v.toThem[s]]
  }

  /** `upload_states` of examples 12 to 14 (outside the listening phase): a truthy
      sender is initialised to "register" and "neutral" if new, and both its states
      are published under the namespaced keys. */
  function UploadDual(v: Views, msg: map<string, Value>): (r: (Upload, Views))
    requires SenderTyped(msg)
    ensures SenderId(msg).None? ==> r == (Nothing, v)
    ensures SenderId(msg).Some? ==>
              var s := SenderId(msg).value;
              r.1 == Views(Initialise(v.toMe, s, "register"), Initialise(v.toThem, s, "neutral"))
              && r.0 == Keyed(DualSnapshot(r.1, s))
  {
    match SenderId(msg)
    case None => (Nothing, v)
    case Some(s) =>
      var v' := Views(Initialise(v.toMe, s, "register"), Initialise(v.toThem, s, "neutral"));
      (Keyed(DualSnapshot(v', s)), v')
  }

  /** Upload never overwrites a peer's existing states, and a repeated upload for the
      same message returns the same snapshot and changes nothing further. */
  lemma UploadDualStable(v: Views, msg: map<string, Value>)
    requires SenderTyped(msg)
    ensures UploadDual(UploadDual(v, msg).1, msg) == UploadDual(v, msg)
    ensures forall p :: p in v.toMe ==> UploadDual(v, msg).1.toMe[p] == v.toMe[p]
    ensures forall p :: p in v.toThem ==> UploadDual(v, msg).1.toThem[p] == v.toThem[p]
  {
    if SenderId(msg).Some? {
      var s := SenderId(msg).value;
      InitialiseIdempotent(v.toMe, s, "register");
      InitialiseIdempotent(v.toThem, s, "neutral");
    }
  }

  /** The peer a namespaced key names: the text after the channel prefix. */
  function PeerOf(key: string, prefix: string): (r: string)
    requires StartsWith(key, prefix)
    ensures key == prefix + r
  {
    key[|prefix|..]
  }

  /** The peer as examples 12 to 14 extract it, `key.split(prefix)[1]`: the text
      after the prefix, cut at the next occurrence of the prefix. */
  function PeerOfAsWritten(key: string, prefix: string): (r: string)
    requires prefix != [] && StartsWith(key, prefix)
    ensures r <= PeerOf(key, prefix)
  {
    SplitSecond(key, prefix)
  }

  /** No key carries both channel prefixes. */
  lemma ChannelPrefixesExclusive(key: string)
    ensures StartsWith(key, ToMe) ==> !StartsWith(key, ToThem)
  {
    if StartsWith(key, ToMe) {
      assert key[3] == ToMe[3] != ToThem[3];
    }
  }

  /** One iteration of the prefixed download loop. A "to_me:" key adopts into
      `relations`, a "to_them:" key into `outside_view`, anything else is ignored. */
  function ApplyChannelKey(v: Views, key: string, cands: seq<string>): (r: Views)
    ensures StartsWith(key, ToMe) ==> r == v.(toMe := ApplyPeer(v.toMe, PeerOf(key, ToMe), cands))
    ensures StartsWith(key, ToThem) ==> r == v.(toThem := ApplyPeer(v.toThem, PeerOf(key, ToThem), cands))
    ensures !StartsWith(key, ToMe) && !StartsWith(key, ToThem) ==> r == v
  {
    ChannelPrefixesExclusive(key);
    var v1 := if StartsWith(key, ToMe) then v.(toMe := ApplyPeer(v.toMe, PeerOf(key, ToMe), cands)) else v;
    if StartsWith(key, ToThem) then v1.(toThem := ApplyPeer(v1.toThem, PeerOf(key, ToThem), cands)) else v1
  }

  /** The prefixed download loop over the offers, in order. It never forgets a peer
      of either view. */
  function DownloadChannels(v: Views, offers: seq<Offer>): (r: Views)
    ensures v.toMe.Keys <= r.toMe.Keys && v.toThem.Keys <= r.toThem.Keys
    decreases |offers|
  {
    if offers == [] then v
    else
      var last := offers[|offers| - 1];
      ApplyChannelKey(DownloadChannels(v, offers[..|offers| - 1]), last.0, last.1)
  }

  /** What `download_states` receives: a dict of offers, or a bare list of states. */
  datatype Offered = ByKey(offers: seq<Offer>) | Flat(states: seq<string>)

  /** A bare list is normalised to `{"default": states}`. */
  function Normalise(o: Offered): (r: seq<Offer>)
    ensures o.ByKey? ==> r == o.offers
    ensures o.Flat? ==> r == [("default", o.states)]
  {
    match o
    case ByKey(offers) => offers
    case Flat(states) => [("default", states)]
  }

  /** A bare list changes neither map: "default" carries neither channel prefix. */
  lemma FlatDownloadIsNoop(v: Views, states: seq<string>)
    ensures DownloadChannels(v, Normalise(Flat(states))) == v
  {
    var offers := Normalise(Flat(states));
    assert offers[..0] == [];
    assert !StartsWith("default", ToMe) && !StartsWith("default", ToThem) by {
      assert "default"[0] != ToMe[0];
    }
  }

  /** Offers under other prefixes change nothing, wherever they occur. */
  lemma {:induction false} UnprefixedOffersIgnored(v: Views, offers: seq<Offer>)
    requires forall i :: 0 <= i < |offers| ==> !StartsWith(offers[i].0, ToMe) && !StartsWith(offers[i].0, ToThem)
    ensures DownloadChannels(v, offers) == v
    decreases |offers|
  {
    if offers != [] {
      assert forall i :: 0 <= i < |offers| - 1 ==> offers[..|offers| - 1][i] == offers[i];
      UnprefixedOffersIgnored(v, offers[..|offers| - 1]);
    }
  }

  /** Publishing a peer's two states and downloading them back changes nothing. */
  lemma EchoIsNoop(v: Views, s: string)
    requires s in v.toMe && s in v.toThem
    ensures DownloadChannels(v, [(ToMe + s, [v.toMe[s]]), (ToThem + s, [v.toThem[s]])]) == v
  {
    var offers: seq<Offer> := [(ToMe + s, [v.toMe[s]]), (ToThem + s, [v.toThem[s]])];
    ChannelPrefixesExclusive(ToMe + s);
    ChannelPrefixesExclusive(ToThem + s);
    assert !StartsWith(ToThem + s, ToMe) by { assert (ToThem + s)[3] != ToMe[3]; }
    assert offers[..1][..0] == [] && offers[..1] == [offers[0]];
    assert PeerOf(ToMe + s, ToMe) == s && PeerOf(ToThem + s, ToThem) == s;
    assert ApplyChannelKey(v, ToMe + s, [v.toMe[s]]) == v;
    assert DownloadChannels(v, offers[..1]) == v;
    assert ApplyChannelKey(v, ToThem + s, [v.toThem[s]]) == v;
  }

  /** Downloading keeps every key, and adds none when each named peer is already known
      on its channel. */
  lemma {:induction false} DownloadChannelsKeys(v: Views, offers: seq<Offer>)
    requires forall i :: 0 <= i < |offers| && StartsWith(offers[i].0, ToMe) ==> PeerOf(offers[i].0, ToMe) in v.toMe
    requires forall i :: 0 <= i < |offers| && StartsWith(offers[i].0, ToThem) ==> PeerOf(offers[i].0, ToThem) in v.toThem
    ensures DownloadChannels(v, offers).toMe.Keys == v.toMe.Keys
    ensures DownloadChannels(v, offers).toThem.Keys == v.toThem.Keys
    decreases |offers|
  {
    if offers != [] {
      var init := offers[..|offers| - 1];
      assert forall i :: 0 <= i < |init| ==> init[i] == offers[i];
      DownloadChannelsKeys(v, init);
    }
  }

  /** A "to_me:" offer never touches `outside_view`, and a "to_them:" offer never
      touches `relations`. */
  lemma {:induction false} ChannelsSeparate(v: Views, offers: seq<Offer>)
    ensures (forall i :: 0 <= i < |offers| ==> !StartsWith(offers[i].0, ToThem))
            ==> DownloadChannels(v, offers).toThem == v.toThem
    ensures (forall i :: 0 <= i < |offers| ==> !StartsWith(offers[i].0, ToMe))
            ==> DownloadChannels(v, offers).toMe == v.toMe
    decreases |offers|
  {
    if offers != [] {
      var init := offers[..|offers| - 1];
      assert forall i :: 0 <= i < |init| ==> init[i] == offers[i];
      ChannelsSeparate(v, init);
    }
  }

  /** After a download, a peer's `relations` entry is the one it had, or one of the
      candidates offered under its "to_me:" key. */
  lemma {:induction false} RelationFromOffers(v: Views, offers: seq<Offer>, p: string)
    requires p in DownloadChannels(v, offers).toMe
    ensures (p in v.toMe && DownloadChannels(v, offers).toMe[p] == v.toMe[p])
            || exists i :: 0 <= i < |offers| && offers[i].0 == ToMe + p
                           && DownloadChannels(v, offers).toMe[p] in offers[i].1
    decreases |offers|
  {
    if offers != [] {
      var init := offers[..|offers| - 1];
      var last := offers[|offers| - 1];
      assert forall i :: 0 <= i < |init| ==> init[i] == offers[i];
      var before := DownloadChannels(v, init);
      if StartsWith(last.0, ToMe) && PeerOf(last.0, ToMe) == p && DownloadChannels(v, offers).toMe[p] in last.1 {
        assert offers[|offers| - 1].0 == ToMe + p;
      } else if p in before.toMe {
        RelationFromOffers(v, init, p);
      }
    }
  }

  /** A peer whose namespaced key no offer carries keeps its entry on that channel. */
  lemma {:induction false} DownloadChannelsFrame(v: Views, offers: seq<Offer>, p: string)
    ensures (forall i :: 0 <= i < |offers| ==> offers[i].0 != ToMe + p)
            ==> (p in DownloadChannels(v, offers).toMe <==> p in v.toMe)
                && Lookup(DownloadChannels(v, offers).toMe, p) == Lookup(v.toMe, p)
    ensures (forall i :: 0 <= i < |offers| ==> offers[i].0 != ToThem + p)
            ==> (p in DownloadChannels(v, offers).toThem <==> p in v.toThem)
                && Lookup(DownloadChannels(v, offers).toThem, p) == Lookup(v.toThem, p)
    decreases |offers|
  {
    if offers != [] {
      var init := offers[..|offers| - 1];
      var last := offers[|offers| - 1];
      assert forall i :: 0 <= i < |init| ==> init[i] == offers[i];
      DownloadChannelsFrame(v, init, p);
      if StartsWith(last.0, ToMe) { assert last.0 == ToMe + PeerOf(last.0, ToMe); }
      if StartsWith(last.0, ToThem) { assert last.0 == ToThem + PeerOf(last.0, ToThem); }
    }
  }

  /** A peer offered under exactly one "to_me:" key ends the download with the first
      of the key's candidates that differs from its `relations` entry ("" for a peer
      not yet known). */
  lemma {:induction false} RelationAdopts(v: Views, offers: seq<Offer>, i: nat)
    requires i < |offers| && StartsWith(offers[i].0, ToMe)
    requires UniqueKey(offers, i)
    ensures Lookup(DownloadChannels(v, offers).toMe, PeerOf(offers[i].0, ToMe))
            == Adopt(Lookup(v.toMe, PeerOf(offers[i].0, ToMe)), offers[i].1)
    decreases |offers|
  {
    var p := PeerOf(offers[i].0, ToMe);
    var init := offers[..|offers| - 1];
    assert forall j :: 0 <= j < |init| ==> init[j] == offers[j];
    ChannelPrefixesExclusive(offers[i].0);
    if i == |offers| - 1 {
      DownloadChannelsFrame(v, init, p);
    } else {
      RelationAdopts(v, init, i);
      var last := offers[|offers| - 1];
      if StartsWith(last.0, ToMe) { assert last.0 == ToMe + PeerOf(last.0, ToMe); }
    }
  }

  /** A peer offered under exactly one "to_them:" key ends the download with the first
      of the key's candidates that differs from its `outside_view` entry ("" for a
      peer not yet known). */
  lemma {:induction false} OutsideViewAdopts(v: Views, offers: seq<Offer>, i: nat)
    requires i < |offers| && StartsWith(offers[i].0, ToThem)
    requires UniqueKey(offers, i)
    ensures Lookup(DownloadChannels(v, offers).toThem, PeerOf(offers[i].0, ToThem))
            == Adopt(Lookup(v.toThem, PeerOf(offers[i].0, ToThem)), offers[i].1)
    decreases |offers|
  {
    var p := PeerOf(offers[i].0, ToThem);
    var init := offers[..|offers| - 1];
    assert forall j :: 0 <= j < |init| ==> init[j] == offers[j];
    ChannelPrefixesExclusive(offers[i].0);
    if i == |offers| - 1 {
      DownloadChannelsFrame(v, init, p);
    } else {
      OutsideViewAdopts(v, init, i);
      var last := offers[|offers| - 1];
      if StartsWith(last.0, ToThem) { assert last.0 == ToThem + PeerOf(last.0, ToThem); }
    }
  }

  /** Every peer offered under one key of a channel ends, on that channel, with the
      first of the key's candidates that differs from its old entry. */
  lemma ChannelsAdopt(v: Views, offers: seq<Offer>)
    ensures forall i :: 0 <= i < |offers| && UniqueKey(offers, i) && StartsWith(offers[i].0, ToMe) ==>
              Lookup(DownloadChannels(v, offers).toMe, PeerOf(offers[i].0, ToMe))
              == Adopt(Lookup(v.toMe, PeerOf(offers[i].0, ToMe)), offers[i].1)
    ensures forall i :: 0 <= i < |offers| && UniqueKey(offers, i) && StartsWith(offers[i].0, ToThem) ==>
              Lookup(DownloadChannels(v, offers).toThem, PeerOf(offers[i].0, ToThem))
              == Adopt(Lookup(v.toThem, PeerOf(offers[i].0, ToThem)), offers[i].1)
  {
    forall i | 0 <= i < |offers| && UniqueKey(offers, i) && StartsWith(offers[i].0, ToMe)
      ensures Lookup(DownloadChannels(v, offers).toMe, PeerOf(offers[i].0, ToMe))
              == Adopt(Lookup(v.toMe, PeerOf(offers[i].0, ToMe)), offers[i].1)
    {
      RelationAdopts(v, offers, i);
    }
    forall i | 0 <= i < |offers| && UniqueKey(offers, i) && StartsWith(offers[i].0, ToThem)
      ensures Lookup(DownloadChannels(v, offers).toThem, PeerOf(offers[i].0, ToThem))
              == Adopt(Lookup(v.toThem, PeerOf(offers[i].0, ToThem)), offers[i].1)
    {
      OutsideViewAdopts(v, offers, i);
    }
  }

  /** After a download of one offer per channel for a known peer, `upload_states`
      publishes the adopted states. */
  lemma DownloadThenUpload(v: Views, s: string, mine: seq<string>, theirs: seq<string>)
    requires s in v.toMe && s in v.toThem
    ensures var w := DownloadChannels(v, [(ToMe + s, mine), (ToThem + s, theirs)]);
            s in w.toMe && s in w.toThem
            && DualSnapshot(w, s) == map[ToMe + s := Adopt(v.toMe[s], mine), ToThem + s := Adopt(v.toThem[s], theirs)]
  {
    var offers: seq<Offer> := [(ToMe + s, mine), (ToThem + s, theirs)];
    ChannelPrefixesExclusive(ToMe + s);
    ChannelPrefixesExclusive(ToThem + s);
    assert !StartsWith(ToThem + s, ToMe) by { assert (ToThem + s)[3] != ToMe[3]; }
    assert offers[..1][..0] == [] && offers[..1] == [offers[0]];
    assert PeerOf(ToMe + s, ToMe) == s && PeerOf(ToThem + s, ToThem) == s;
    var v1 := ApplyChannelKey(v, ToMe + s, mine);
    assert DownloadChannels(v, offers[..1]) == v1;
    assert v1 == v.(toMe := ApplyPeer(v.toMe, s, mine));
    var w := ApplyChannelKey(v1, ToThem + s, theirs);
    assert DownloadChannels(v, offers) == w;
    assert w == v1.(toThem := ApplyPeer(v.toThem, s, theirs));
  }

  // ---------------------------------------------------------------------------
  // The peer extraction, as written and as intended

  /** The intended extraction inverts the key `upload_states` builds. */
  lemma PeerOfInvertsKey(prefix: string, p: string)
    ensures PeerOf(prefix + p, prefix) == p
  {
  }

  /** The two extractions agree on every peer id that does not contain the prefix. */
  lemma {:induction false} AsWrittenAgrees(prefix: string, p: string)
    requires prefix != [] && !Contains(p, prefix)
    ensures PeerOfAsWritten(prefix + p, prefix) == p
  {
    assert (prefix + p)[|prefix|..] == p;
    FindAbsent(p, prefix);
  }

  /** `split` cuts the peer id at its first inner occurrence of the prefix. */
  lemma AsWrittenCutsAt(prefix: string, p: string)
    requires prefix != []
    ensures PeerOfAsWritten(prefix + p, prefix) == p[..Find(p, prefix)]
  {
    assert (prefix + p)[|prefix|..] == p;
  }

  /** The first inner "to_me:" of the misfiled peer id below sits at index 16. */
  lemma FirstInnerPrefix(p: string)
    requires p == "ChangeMe_Agent_6to_me:x"
    ensures Find(p, ToMe) == 16
  {
    assert p[16..] == "to_me:x";
    assert ToMe <= p[16..];
    forall j | 0 <= j < 16
      ensures !(ToMe <= p[j..])
    {
      if j == 13 {
        assert p[j..][1] == p[14] == '_';
      } else {
        assert p[j..][0] == p[j] != 't';
      }
    }
  }

  /** A peer id that passes the example 14 allowlist but contains "to_me:" is filed
      under another peer: the key "to_me:ChangeMe_Agent_6to_me:x" names
      "ChangeMe_Agent_6". */
  lemma AsWrittenMisfilesPeer(p: string)
    requires p == "ChangeMe_Agent_6to_me:x"
    ensures StartsWith(p, "ChangeMe_Agent_6")
            && PeerOfAsWritten(ToMe + p, ToMe) == "ChangeMe_Agent_6"
            && PeerOf(ToMe + p, ToMe) == p
  {
    FirstInnerPrefix(p);
    AsWrittenCutsAt(ToMe, p);
    assert p[..16] == "ChangeMe_Agent_6";
  }

  // ---------------------------------------------------------------------------
  // The state the agents keep

  /** `relations` of examples 10 and 11: one state per peer. */
  class PeerTable {
    var relations: map<string, string>

    constructor ()
      ensures relations == map[]
    {
      relations := map[];
    }

    /** `upload_states`. */
    method Upload(msg: map<string, Value>) returns (r: Upload)
      requires SenderTyped(msg)
      modifies this
      ensures (r, relations) == UploadSingle(old(relations), msg)
    {
      match SenderId(msg)
      case None =>
        r := Nothing;
      case Some(s) =>
        if s !in relations {
          relations := relations[s := "register"];
        }
        r := Keyed(map[s := relations[s]]);
    }

    /** `download_states`: every offered key must already be a known peer (the
        loop indexes `relations` directly and raises `KeyError` otherwise). */
    method Download(offers: seq<Offer>)
      requires forall i :: 0 <= i < |offers| ==> offers[i].0 in relations
      modifies this
      ensures relations == DownloadPeers(old(relations), offers)
      ensures relations.Keys == old(relations).Keys
      ensures forall i :: 0 <= i < |offers| && UniqueKey(offers, i) ==>
                relations[offers[i].0] == Adopt(old(relations)[offers[i].0], offers[i].1)
    {
      var i := 0;
      while i < |offers|
        invariant 0 <= i <= |offers|
        invariant relations == DownloadPeers(old(relations), offers[..i])
        invariant relations.Keys == old(relations).Keys
      {
        var (peer, cands) := offers[i];
        ghost var before := relations;
        match FirstDiffering(cands, relations[peer]) {
          case Some(v) =>
            relations := relations[peer := v];
          case None =>
        }
        assert relations == ApplyPeer(before, peer, cands);
        DownloadPeersStep(old(relations), offers, i);
        i := i + 1;
      }
      assert offers[..|offers|] == offers;
      KnownPeersAdopt(old(relations), offers);
    }
  }

  /** Every peer a "to_me:" or "to_them:" offer names already has an entry on that
      channel: the condition under which the direct indexing of examples 12 and 13
      does not raise. */
  predicate KnownPeers(v: Views, offers: seq<Offer>) {
    (forall i :: 0 <= i < |offers| && StartsWith(offers[i].0, ToMe) ==> PeerOf(offers[i].0, ToMe) in v.toMe)
    && (forall i :: 0 <= i < |offers| && StartsWith(offers[i].0, ToThem) ==> PeerOf(offers[i].0, ToThem) in v.toThem)
  }

  /** `relations` and `outside_view` of examples 12 to 14. */
  class ChannelTable {
    var relations: map<string, string>
    var outsideView: map<string, string>

    constructor ()
      ensures relations == map[] && outsideView == map[]
    {
      relations := map[];
      outsideView := map[];
    }

    function View(): Views
      reads this
    {
      Views(relations, outsideView)
    }

    /** `upload_states` outside the listening phase. */
    method Upload(msg: map<string, Value>) returns (r: Upload)
      requires SenderTyped(msg)
      modifies this
      ensures (r, View()) == UploadDual(old(View()), msg)
    {
      match SenderId(msg)
      case None =>
        r := Nothing;
      case Some(s) =>
        if s !in relations {
          relations := relations[s := "register"];
        }
        if s !in outsideView {
          outsideView := outsideView[s := "neutral"];
        }
        r := Keyed(DualSnapshot(View(), s));
    }

    /** The loop of `download_states` over the offered keys, reading a missing entry
        as "" as example 14 does. Where every named peer is known (the only inputs
        on which examples 12 and 13 do not raise) it adds no entry. */
    method Download(offers: seq<Offer>)
      modifies this
      ensures View() == DownloadChannels(old(View()), offers)
      ensures KnownPeers(old(View()), offers) ==>
                relations.Keys == old(relations).Keys && outsideView.Keys == old(outsideView).Keys
      ensures forall i :: 0 <= i < |offers| && UniqueKey(offers, i) && StartsWith(offers[i].0, ToMe) ==>
                Lookup(relations, PeerOf(offers[i].0, ToMe))
                == Adopt(Lookup(old(relations), PeerOf(offers[i].0, ToMe)), offers[i].1)
      ensures forall i :: 0 <= i < |offers| && UniqueKey(offers, i) && StartsWith(offers[i].0, ToThem) ==>
                Lookup(outsideView, PeerOf(offers[i].0, ToThem))
                == Adopt(Lookup(old(outsideView), PeerOf(offers[i].0, ToThem)), offers[i].1)
    {
      var i := 0;
      while i < |offers|
        invariant 0 <= i <= |offers|
        invariant View() == DownloadChannels(old(View()), offers[..i])
      {
        var (key, cands) := offers[i];
        ChannelPrefixesExclusive(key);
        if StartsWith(key, ToMe) {
          var peer := PeerOf(key, ToMe);
          match FirstDiffering(cands, Lookup(relations, peer)) {
            case Some(v) =>
              relations := relations[peer := v];
            case None =>
          }
        }
        if StartsWith(key, ToThem) {
          var peer := PeerOf(key, ToThem);
          match FirstDiffering(cands, Lookup(outsideView, peer)) {
            case Some(v) =>
              outsideView := outsideView[peer := v];
            case None =>
          }
        }
        assert offers[..i + 1][..i] == offers[..i];
        i := i + 1;
      }
      assert offers[..|offers|] == offers;
      if KnownPeers(old(View()), offers) {
        DownloadChannelsKeys(old(View()), offers);
      }
      ChannelsAdopt(old(View()), offers);
    }
  }
}
