/** The edge publisher's MQTT signalling (`internal/livestream/signal.go`),
    written against the schema in which a SessionDescription holds a
    nested `SDP{Type, Description}` next to the publisher's `Id` and
    `TrackSource`. Messages are modelled as records: `proto.Marshal` and
    `proto.Unmarshal` of this schema are taken as exact inverses, and a
    payload that does not unmarshal is None. */
module EdgeSignal {
  import opened Wrappers
  import opened ByteStrings
  import Pion
  import Pb = SignalPb
  import Enc = SignalEncoding
  import Topics

  /** `pb.SDP`; `sdpType` is an `int32`. */
  datatype Sdp = Sdp(sdpType: int, description: Bytes)

  /** `pb.SessionDescription` of this schema; a nil `Sdp` is None. */
  datatype Message = Message(sdp: Option<Sdp>, id: Bytes, trackSource: Pb.TrackSource)

  /** `cfg` of the edge publisher, the parts signalling reads. */
  datatype Config = Config(offerTopic: Bytes, answerTopic: Bytes)

  /** One `client.Publish` call. */
  datatype Publication = Publication(topic: Bytes, qos: nat, retained: bool, payload: Message)

  /** encodeSDP: the description's type cut to `int32` and its text, with
      the publisher's own id and track source. Marshalling this message
      does not fail. */
  function EncodeSDP(id: Bytes, trackSource: Pb.TrackSource, d: Pion.SessionDescription): (r: Message)
    ensures r.id == id && r.trackSource == trackSource
    ensures r.sdp.Some? && IsInt32(r.sdp.value.sdpType) && r.sdp.value.description == d.sdp
  {
    Message(Some(Sdp(WrapInt32(d.sdpType), d.sdp)), id, trackSource)
  }

  /** decodeSDP: an unmarshal error is returned; a message without its
      nested SDP is dereferenced and panics; otherwise the type and the
      text, whatever the id and track source were. */
  function DecodeSDP(payload: Option<Message>): (r: Enc.Decoded<Pion.SessionDescription>)
    ensures r.Failed? <==> payload.None?
    ensures r.Panicked? <==> payload.Some? && payload.value.sdp.None?
    ensures r.Value? ==> r.value == Pion.SessionDescription(payload.value.sdp.value.sdpType, payload.value.sdp.value.description)
  {
    match payload
    case None => Enc.Failed
    case Some(m) =>
      match m.sdp
      case None => Enc.Panicked
      case Some(s) => Enc.Value(Pion.SessionDescription(s.sdpType, s.description))
  }

  /** decodeSDP(encodeSDP(d)) has the type and text of d, for every type
      an `int32` holds. */
  lemma {:induction false} DecodeEncodeSDP(id: Bytes, trackSource: Pb.TrackSource, d: Pion.SessionDescription)
    requires IsInt32(d.sdpType)
    ensures DecodeSDP(Some(EncodeSDP(id, trackSource, d))) == Enc.Value(d)
  {
  }

  /** A type outside `int32` comes back as its low 32 bits. */
  lemma {:induction false} DecodeEncodeWraps(id: Bytes, trackSource: Pb.TrackSource, d: Pion.SessionDescription)
    ensures DecodeSDP(Some(EncodeSDP(id, trackSource, d))) == Enc.Value(d.(sdpType := WrapInt32(d.sdpType)))
  {
  }

  /** The other fields never influence what is decoded. */
  lemma {:induction false} DecodeIgnoresIdentity(m: Message, id: Bytes, trackSource: Pb.TrackSource)
    ensures DecodeSDP(Some(m.(id := id, trackSource := trackSource))) == DecodeSDP(Some(m))
  {
  }

  /** An empty payload unmarshals to a message without the nested SDP:
      decoding it panics. */
  lemma {:induction false} EmptyMessagePanics()
    ensures DecodeSDP(Some(Message(None, [], Pb.UNKNOWN))) == Enc.Panicked
  {
  }

  /** The answer topic `AnswerTopic/id/trackSource`. */
  function AnswerTopic(config: Config, id: Bytes, trackSource: Pb.TrackSource): Bytes {
    Topics.Topic(config.answerTopic, id, trackSource as int)
  }

  /** The one-shot subscription and channel recvAnswer returns. */
  class AnswerSubscription {
    const topic: Bytes
    /** Whether the MQTT subscription is still in place. */
    var subscribed: bool
    /** The values put on the channel, and whether it is closed. */
    var values: seq<Pion.SessionDescription>
    var closed: bool

    /** The channel delivers at most one description and is closed once
        the subscription is gone. */
    predicate Valid()
      reads this
    {
      && (subscribed ==> values == [] && !closed)
      && (!subscribed ==> closed && |values| <= 1)
    }

    /** recvAnswer: subscribe to the answer topic with an empty channel. */
    constructor(config: Config, id: Bytes, trackSource: Pb.TrackSource)
      ensures Valid() && subscribed && values == []
      ensures topic == AnswerTopic(config, id, trackSource)
    {
      topic := Topics.Topic(config.answerTopic, id, trackSource as int);
      subscribed := true;
      values := [];
      closed := false;
    }

    /** The subscription handler, called once per message while the
        subscription stands: decode, put a decoded answer on the channel,
        and in every case unsubscribe and close the channel (the deferred
        calls also run when decoding panics). Returns whether it panicked. */
    method OnMessage(payload: Option<Message>) returns (panicked: bool)
      requires Valid() && subscribed
      modifies this
      ensures Valid() && !subscribed && closed
      ensures panicked <==> DecodeSDP(payload).Panicked?
      ensures values == (if DecodeSDP(payload).Value? then [DecodeSDP(payload).value] else [])
    {
      var d := DecodeSDP(payload);
      panicked := d.Panicked?;
      if d.Value? {
        values := values + [d.value];
      }
      subscribed := false;
      closed := true;
    }

    /** What `<-ch` yields: the answer, nil (None) once the channel is
        closed and empty; the reader blocks while neither holds. */
    function Receive(): (r: Option<Option<Pion.SessionDescription>>)
      reads this
      requires Valid()
      ensures r.None? <==> subscribed
      ensures r == Some(None) <==> !subscribed && values == []
    {
      if values != [] then Some(Some(values[0]))
      else if closed then Some(None)
      else None
    }
  }

  /** Whatever the payload, after the first message the reader is never
      blocked, and sees the decoded answer or nil. */
  lemma {:induction false} ReceiveAfterMessage(payload: Option<Message>, s: AnswerSubscription)
    requires s.Valid() && !s.subscribed
    requires s.values == (if DecodeSDP(payload).Value? then [DecodeSDP(payload).value] else [])
    ensures s.Receive() == Some(if DecodeSDP(payload).Value? then Some(DecodeSDP(payload).value) else None)
  {
  }

  /** The edge side's publisher as far as signalling goes. */
  class Signaller {
    const config: Config
    const id: Bytes
    const trackSource: Pb.TrackSource
    var published: seq<Publication>

    constructor(config: Config, id: Bytes, trackSource: Pb.TrackSource)
      ensures this.config == config && this.id == id && this.trackSource == trackSource && published == []
    {
      this.config := config;
      this.id := id;
      this.trackSource := trackSource;
      published := [];
    }

    /** sendOffer: publish the encoded offer to OfferTopic with QoS 1,
        retained. Its only error would be an encoding error, which this
        message cannot produce; delivery failures are logged later. */
    method SendOffer(d: Pion.SessionDescription) returns (err: bool)
      modifies this`published
      ensures !err
      ensures published == old(published) + [Publication(config.offerTopic, 1, true, EncodeSDP(id, trackSource, d))]
    {
      var payload := Message(Some(Sdp(WrapInt32(d.sdpType), d.sdp)), id, trackSource);
      published := published + [Publication(config.offerTopic, 1, true, payload)];
      err := false;
    }

    /** recvAnswer. */
    method RecvAnswer() returns (s: AnswerSubscription)
      ensures fresh(s) && s.Valid() && s.subscribed && s.values == []
      ensures s.topic == AnswerTopic(config, id, trackSource)
    {
      s := new AnswerSubscription(config, id, trackSource);
    }
  }
}
