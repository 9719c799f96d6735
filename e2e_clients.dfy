/** The two browser test clients of the broadcast service: `index.js`,
    which signals for both track sources of one machine over a single
    WebSocket and a single peer connection, and `static/index.js`, which
    uses one peer connection and one HTTP POST per track source. JSON
    values are modelled as a tree; `JSON.stringify` and `JSON.parse` are
    taken as inverses and only a parse failure is modelled. */
module E2eClients {
  import opened Wrappers
  import opened ByteStrings

  /** A JSON value; an object keeps its members in order, duplicates
      included. */
  datatype Json =
    | JNull
    | JBool(b: bool)
    | JNumber(n: real)
    | JString(s: Bytes)
    | JArray(items: seq<Json>)
    | JObject(members: seq<(Bytes, Json)>)

  /** The envelope keys "id", "track_source" and "sdp". */
  const ID_KEY: Bytes := [0x69, 0x64]
  const TRACK_SOURCE_KEY: Bytes := [0x74, 0x72, 0x61, 0x63, 0x6B, 0x5F, 0x73, 0x6F, 0x75, 0x72, 0x63, 0x65]
  const SDP_KEY: Bytes := [0x73, 0x64, 0x70]

  /** The machine id both clients hard-code,
      "fa955cc6881b4b45b49ffbf2d81e7223". */
  const MACHINE_ID: Bytes := [0x66, 0x61, 0x39, 0x35, 0x35, 0x63, 0x63, 0x36, 0x38, 0x38, 0x31, 0x62, 0x34, 0x62, 0x34, 0x35,
                              0x62, 0x34, 0x39, 0x66, 0x66, 0x62, 0x66, 0x32, 0x64, 0x38, 0x31, 0x65, 0x37, 0x32, 0x32, 0x33]

  /** "video". */
  const VIDEO: Bytes := [0x76, 0x69, 0x64, 0x65, 0x6F]

  /** The offer envelope `{id, track_source: i, sdp: offer}`. */
  function Envelope(i: int, offer: Json): (r: Json)
    ensures r.JObject? && Keys(r.members) == [ID_KEY, TRACK_SOURCE_KEY, SDP_KEY]
  {
    JObject([(ID_KEY, JString(MACHINE_ID)), (TRACK_SOURCE_KEY, JNumber(i as real)), (SDP_KEY, offer)])
  }

  /** The keys of an object's members, in order. */
  function Keys(members: seq<(Bytes, Json)>): (r: seq<Bytes>)
    ensures |r| == |members|
    ensures forall k | 0 <= k < |r| :: r[k] == members[k].0
  {
    if members == [] then [] else Keys(members[..|members| - 1]) + [members[|members| - 1].0]
  }

  /** The value of a key in an object's members: the last member with
      that key wins, as with `JSON.parse`. */
  function Find(members: seq<(Bytes, Json)>, key: Bytes): (r: Option<Json>)
    ensures r.None? <==> key !in Keys(members)
    ensures r.Some? ==> exists k | 0 <= k < |members| :: members[k] == (key, r.value)
  {
    if members == [] then None
    else if members[|members| - 1].0 == key then Some(members[|members| - 1].1)
    else
      var r := Find(members[..|members| - 1], key);
      assert Keys(members) == Keys(members[..|members| - 1]) + [members[|members| - 1].0];
      r
  }

  /** The three keys differ, so each member of an envelope is found. */
  lemma {:induction false} EnvelopeFields(i: int, offer: Json)
    ensures Find(Envelope(i, offer).members, ID_KEY) == Some(JString(MACHINE_ID))
    ensures Find(Envelope(i, offer).members, TRACK_SOURCE_KEY) == Some(JNumber(i as real))
    ensures Find(Envelope(i, offer).members, SDP_KEY) == Some(offer)
  {
    var m := Envelope(i, offer).members;
    assert m[..2] == [(ID_KEY, JString(MACHINE_ID)), (TRACK_SOURCE_KEY, JNumber(i as real))];
    assert m[..2][..1] == [(ID_KEY, JString(MACHINE_ID))];
    assert ID_KEY != SDP_KEY && ID_KEY != TRACK_SOURCE_KEY && TRACK_SOURCE_KEY != SDP_KEY;
  }

  /** A property read `v.key`: reading from null throws; a value that is
      not an object, an array such as the one `JSON.parse("[1]")` gives
      included, has none of the keys the clients read. */
  datatype Access = Throws | Undefined | Found(value: Json)

  function Member(v: Json, key: Bytes): (r: Access)
    ensures r.Throws? <==> v.JNull?
    ensures r.Found? ==> v.JObject? && Find(v.members, key) == Some(r.value)
    ensures v.JObject? && Find(v.members, key).Some? ==> r.Found?
  {
    match v
    case JNull => Throws
    case JObject(members) => if Find(members, key).Some? then Found(Find(members, key).value) else Undefined
    case _ => Undefined
  }

  /** The peer connection as far as the clients use it: the transceivers
      added, and the arguments of every setLocalDescription and
      setRemoteDescription call (None for `undefined`). The promises these
      calls return are never awaited. */
  class PeerConnection {
    var transceivers: seq<Bytes>
    var localCalls: seq<Json>
    var remoteCalls: seq<Option<Json>>

    constructor()
      ensures transceivers == [] && localCalls == [] && remoteCalls == []
    {
      transceivers := [];
      localCalls := [];
      remoteCalls := [];
    }

    method AddTransceiver(kind: Bytes)
      modifies this`transceivers
      ensures transceivers == old(transceivers) + [kind]
    {
      transceivers := transceivers + [kind];
    }

    method SetLocalDescription(d: Json)
      modifies this`localCalls
      ensures localCalls == old(localCalls) + [d]
    {
      localCalls := localCalls + [d];
    }

    method SetRemoteDescription(d: Option<Json>)
      modifies this`remoteCalls
      ensures remoteCalls == old(remoteCalls) + [d]
    {
      remoteCalls := remoteCalls + [d];
    }
  }

  /** How `pc.createOffer()` settles. */
  datatype OfferResult = OfferFailed | Offered(offer: Json)

  // ---- index.js ----

  /** What the page writes to the console or an alert. */
  datatype LogEntry = Disconnected(code: int, reason: Bytes) | OfferAlert | ParseError

  /** The envelopes sent for the offers of track sources 0, 1, ... in that
      order; a failed offer sends nothing. */
  function Sent(offers: seq<OfferResult>): (r: seq<Json>)
    ensures |r| <= |offers|
  {
    if offers == [] then []
    else
      var last := offers[|offers| - 1];
      Sent(offers[..|offers| - 1]) + (if last.Offered? then [Envelope(|offers| - 1, last.offer)] else [])
  }

  /** The descriptions set locally, one per successful offer. */
  function Locals(offers: seq<OfferResult>): (r: seq<Json>)
    ensures |r| <= |offers|
  {
    if offers == [] then []
    else
      var last := offers[|offers| - 1];
      Locals(offers[..|offers| - 1]) + (if last.Offered? then [last.offer] else [])
  }

  /** The alerts, one per failed offer. */
  function Alerts(offers: seq<OfferResult>): (r: seq<LogEntry>)
  {
    if offers == [] then []
    else Alerts(offers[..|offers| - 1]) + (if offers[|offers| - 1].Offered? then [] else [OfferAlert])
  }

  /** `e` is an object whose sdp is `d` and whose id is the machine id. */
  predicate Carries(e: Json, d: Json) {
    e.JObject? && Find(e.members, SDP_KEY) == Some(d) && Find(e.members, ID_KEY) == Some(JString(MACHINE_ID))
  }

  /** Every sent envelope carries, as its sdp, the description set locally
      just before it, and the constant machine id. */
  lemma {:induction false} SentCarriesLocals(offers: seq<OfferResult>)
    ensures |Sent(offers)| == |Locals(offers)|
    ensures forall k | 0 <= k < |Sent(offers)| :: Carries(Sent(offers)[k], Locals(offers)[k])
  {
    if offers != [] {
      var init := offers[..|offers| - 1];
      var last := offers[|offers| - 1];
      SentCarriesLocals(init);
      var s0, l0 := Sent(init), Locals(init);
      if last.Offered? {
        EnvelopeFields(|offers| - 1, last.offer);
        assert Sent(offers) == s0 + [Envelope(|offers| - 1, last.offer)];
        assert Locals(offers) == l0 + [last.offer];
        forall k | 0 <= k < |Sent(offers)|
          ensures Carries(Sent(offers)[k], Locals(offers)[k])
        {
          if k < |s0| {
            assert Sent(offers)[k] == s0[k] && Locals(offers)[k] == l0[k];
          }
        }
      } else {
        assert Sent(offers) == s0 && Locals(offers) == l0;
      }
    }
  }

  /** One more offer extends each of the three traces by its own part. */
  lemma {:induction false} OfferStep(offers: seq<OfferResult>, i: nat)
    requires i < |offers|
    ensures Sent(offers[..i + 1]) == Sent(offers[..i]) + (if offers[i].Offered? then [Envelope(i, offers[i].offer)] else [])
    ensures Locals(offers[..i + 1]) == Locals(offers[..i]) + (if offers[i].Offered? then [offers[i].offer] else [])
    ensures Alerts(offers[..i + 1]) == Alerts(offers[..i]) + (if offers[i].Offered? then [] else [OfferAlert])
  {
    assert offers[..i + 1][..i] == offers[..i];
  }

  /** When both offers succeed, track source 0 is sent before track
      source 1. */
  lemma {:induction false} BothOffersInOrder(o0: Json, o1: Json)
    ensures Sent([Offered(o0), Offered(o1)]) == [Envelope(0, o0), Envelope(1, o1)]
  {
    assert [Offered(o0), Offered(o1)][..1] == [Offered(o0)];
    assert [Offered(o0)][..0] == [];
  }

  /** What the message handler passes to setRemoteDescription: nothing
      when the text does not parse (None) or `answer.sdp` throws, the sdp
      member otherwise, `undefined` if it is missing. */
  function Applied(data: Option<Json>): (r: Option<Option<Json>>)
    ensures data.None? ==> r.None?
    ensures data.Some? ==> (r.None? <==> data.value.JNull?)
    ensures r.Some? && r.value.Some? ==> Member(data.value, SDP_KEY) == Found(r.value.value)
  {
    match data
    case None => None
    case Some(v) =>
      match Member(v, SDP_KEY)
      case Throws => None
      case Undefined => Some(None)
      case Found(d) => Some(Some(d))
  }

  /** The handler does not look at the message's track source: a reply
      for either track source, and any member added after the sdp, apply
      the same description. */
  lemma {:induction false} AppliedIgnoresTrackSource(members: seq<(Bytes, Json)>, ts: Json)
    ensures Applied(Some(JObject(members + [(TRACK_SOURCE_KEY, ts)]))) == Applied(Some(JObject(members)))
  {
    var m := members + [(TRACK_SOURCE_KEY, ts)];
    assert m[..|m| - 1] == members;
    assert TRACK_SOURCE_KEY != SDP_KEY;
  }

  /** A reply in the envelope's shape applies its sdp, whatever its track
      source. */
  lemma {:induction false} EnvelopeReplyApplied(i: int, answer: Json)
    ensures Applied(Some(Envelope(i, answer))) == Some(Some(answer))
  {
    EnvelopeFields(i, answer);
  }

  /** A reply that parses to an array, number, string or boolean has no
      `sdp`, so `undefined` is applied. */
  lemma {:induction false} NonObjectReplyAppliesUndefined(v: Json)
    requires !v.JNull? && !v.JObject?
    ensures Applied(Some(v)) == Some(None)
  {
  }

  /** The page of `index.js`: a single peer connection, the WebSocket
      dials (each recorded with the transceivers present at that moment),
      what was sent on the socket, and the log. */
  class Page {
    const pc: PeerConnection
    var dials: seq<seq<Bytes>>
    var sent: seq<Json>
    var logs: seq<LogEntry>

    /** Page load: one video transceiver is added, then `dial` runs once. */
    constructor()
      ensures fresh(pc) && pc.transceivers == [VIDEO] && pc.localCalls == [] && pc.remoteCalls == []
      ensures dials == [[VIDEO]] && sent == [] && logs == []
    {
      var c := new PeerConnection();
      c.AddTransceiver(VIDEO);
      pc := c;
      dials := [c.transceivers];
      sent := [];
      logs := [];
    }

    /** The open handler, with the two createOffer promises settled in
        loop order: each offer is set as the local description, unawaited,
        then its envelope is sent; a failure only alerts. */
    method OnOpen(offers: seq<OfferResult>)
      requires |offers| == 2
      modifies this`sent, this`logs, pc`localCalls
      ensures sent == old(sent) + Sent(offers)
      ensures pc.localCalls == old(pc.localCalls) + Locals(offers)
      ensures logs == old(logs) + Alerts(offers)
    {
      for i := 0 to 2
        invariant sent == old(sent) + Sent(offers[..i])
        invariant pc.localCalls == old(pc.localCalls) + Locals(offers[..i])
        invariant logs == old(logs) + Alerts(offers[..i])
      {
        OfferStep(offers, i);
        if offers[i].Offered? {
          pc.SetLocalDescription(offers[i].offer);
          sent := sent + [Envelope(i, offers[i].offer)];
        } else {
          logs := logs + [OfferAlert];
        }
      }
      assert offers[..2] == offers;
    }

    /** The message handler: the parsed message's sdp goes to the single
        peer connection, whichever track source it answers; a message that
        does not parse, or parses to null, is logged and applies nothing. */
    method OnMessage(data: Option<Json>)
      modifies pc`remoteCalls, this`logs
      ensures Applied(data).Some? ==> pc.remoteCalls == old(pc.remoteCalls) + [Applied(data).value] && logs == old(logs)
      ensures Applied(data).None? ==> pc.remoteCalls == old(pc.remoteCalls) && logs == old(logs) + [ParseError]
    {
      if data.None? || data.value.JNull? {
        logs := logs + [ParseError];
        return;
      }
      var m := Member(data.value, SDP_KEY);
      pc.SetRemoteDescription(if m.Found? then Some(m.value) else None);
    }

    /** The close handler only logs: no reconnect. */
    method OnClose(code: int, reason: Bytes)
      modifies this`logs
      ensures logs == old(logs) + [Disconnected(code, reason)]
    {
      logs := logs + [Disconnected(code, reason)];
    }
  }

  // ---- static/index.js ----

  /** "http://" and ":8080/v1/broadcast/signal". */
  const HTTP_SCHEME: Bytes := [0x68, 0x74, 0x74, 0x70, 0x3A, 0x2F, 0x2F]
  const SIGNAL_PATH: Bytes := [0x3A, 0x38, 0x30, 0x38, 0x30, 0x2F, 0x76, 0x31, 0x2F, 0x62, 0x72, 0x6F, 0x61, 0x64,
                               0x63, 0x61, 0x73, 0x74, 0x2F, 0x73, 0x69, 0x67, 0x6E, 0x61, 0x6C]

  /** `http://${hostname}:8080/v1/broadcast/signal`. */
  function SignalUrl(hostname: Bytes): (r: Bytes)
    ensures |r| == |HTTP_SCHEME| + |hostname| + |SIGNAL_PATH|
    ensures r[..|HTTP_SCHEME|] == HTTP_SCHEME && r[|HTTP_SCHEME|..] == hostname + SIGNAL_PATH
  {
    assert (HTTP_SCHEME + hostname + SIGNAL_PATH)[|HTTP_SCHEME|..] == hostname + SIGNAL_PATH;
    HTTP_SCHEME + hostname + SIGNAL_PATH
  }

  /** One POST with a JSON body. */
  datatype Post = Post(url: Bytes, body: Json)

  /** How one chain's steps settle: the offer, whether `fetch` rejects,
      and the parsed response body (None when `res.json()` rejects). */
  datatype Chain = Chain(offer: OfferResult, fetchFails: bool, response: Option<Json>)

  /** What chain i posts: its envelope, unless the offer failed. */
  function ChainPost(hostname: Bytes, i: int, c: Chain): (r: Option<Post>)
    ensures r.Some? <==> c.offer.Offered?
    ensures r.Some? ==> r.value.body == Envelope(i, c.offer.offer)
  {
    if c.offer.Offered? then Some(Post(SignalUrl(hostname), Envelope(i, c.offer.offer))) else None
  }

  /** What chain i applies as the remote description: the whole response
      body, once the offer, the request and the body parse all succeed. */
  function ChainRemote(c: Chain): (r: seq<Option<Json>>)
    ensures r != [] <==> c.offer.Offered? && !c.fetchFails && c.response.Some?
    ensures r != [] ==> r == [Some(c.response.value)]
  {
    if c.offer.Offered? && !c.fetchFails && c.response.Some? then [Some(c.response.value)] else []
  }

  /** Whether chain i's catch handler logs. */
  function ChainFails(c: Chain): (r: bool)
    ensures r <==> ChainRemote(c) == []
  {
    c.offer.OfferFailed? || c.fetchFails || c.response.None?
  }

  /** The response is applied whole: a reply in the envelope's shape would
      be set as the remote description itself, not its sdp member. */
  lemma {:induction false} EnvelopeResponseNotUnwrapped(c: Chain, i: int, answer: Json)
    requires c.offer.Offered? && !c.fetchFails && c.response == Some(Envelope(i, answer))
    ensures ChainRemote(c) == [Some(Envelope(i, answer))]
    ensures ChainRemote(c) != [Some(answer)]
  {
    var e := Envelope(i, answer);
    assert e.members[2].1 == answer;
    assert answer < e;
  }

  /** The page of `static/index.js`: for i in 0 and 1, a separate peer
      connection with one video transceiver and one offer/answer chain of
      its own. Chain i's effects depend only on `chains[i]`: a failure is
      caught by that chain alone. */
  method LoadStatic(hostname: Bytes, chains: seq<Chain>) returns (pcs: seq<PeerConnection>, posts: seq<Option<Post>>, failed: seq<bool>)
    requires |chains| == 2
    ensures |pcs| == 2 && |posts| == 2 && |failed| == 2
    ensures fresh(pcs[0]) && fresh(pcs[1]) && pcs[0] != pcs[1]
    ensures forall i | 0 <= i < 2 ::
      && pcs[i].transceivers == [VIDEO]
      && pcs[i].localCalls == (if chains[i].offer.Offered? then [chains[i].offer.offer] else [])
      && pcs[i].remoteCalls == ChainRemote(chains[i])
      && posts[i] == ChainPost(hostname, i, chains[i])
      && failed[i] == ChainFails(chains[i])
  {
    pcs, posts, failed := [], [], [];
    for i := 0 to 2
      invariant |pcs| == i && |posts| == i && |failed| == i
      invariant forall j | 0 <= j < i :: fresh(pcs[j])
      invariant forall j, k | 0 <= j < k < i :: pcs[j] != pcs[k]
      invariant forall j | 0 <= j < i ::
        && pcs[j].transceivers == [VIDEO]
        && pcs[j].localCalls == (if chains[j].offer.Offered? then [chains[j].offer.offer] else [])
        && pcs[j].remoteCalls == ChainRemote(chains[j])
        && posts[j] == ChainPost(hostname, j, chains[j])
        && failed[j] == ChainFails(chains[j])
    {
      var pc := new PeerConnection();
      pc.AddTransceiver(VIDEO);
      var c := chains[i];
      var post: Option<Post> := None;
      var fails := true;
      if c.offer.Offered? {
        pc.SetLocalDescription(c.offer.offer);
        post := Some(Post(SignalUrl(hostname), Envelope(i, c.offer.offer)));
        if !c.fetchFails && c.response.Some? {
          pc.SetRemoteDescription(Some(c.response.value));
          fails := false;
        }
      }
      pcs, posts, failed := pcs + [pc], posts + [post], failed + [fails];
    }
  }
}
