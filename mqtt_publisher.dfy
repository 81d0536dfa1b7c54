/** The outbound side (publish/mqtt_publisher.py): one topic builder per kind
    of message, all of the shape `vibration/<kind>/<asset>/<point>` except the
    fixed heartbeat topic, and a `_publish` that never raises. The MQTT client
    is modelled by the log of messages handed to it. */
module MqttPublisher {
  import opened Features
  import MqttListener

  /** One message handed to `client.publish`: its topic and its JSON payload. */
  datatype Message = Message(topic: string, payload: Json)

  /** The topic of the per-sensor messages of one kind. */
  function AssetTopic(kind: string, asset: string, point: string): string {
    "vibration" + "/" + kind + "/" + asset + "/" + point
  }

  const EarlyFaultKind: string := "early_fault"
  const L2ResultKind: string := "l2_result"
  const ScadaKind: string := "scada"
  const HealthAlarmKind: string := "health_alarm"
  const RecommendationKind: string := "recommendation"
  const HeartbeatTopic: string := "vibration/heartbeat"

  /** The kinds of per-sensor topic the publisher builds. */
  const Kinds: set<string> := {EarlyFaultKind, L2ResultKind, ScadaKind, HealthAlarmKind, RecommendationKind}

  /** Every per-sensor topic the publisher builds parses back to its asset and
      point with the listener's `_parse_topic`, as long as neither contains `/`. */
  lemma PublishedTopicParses(kind: string, asset: string, point: string)
    requires kind in Kinds && '/' !in asset && '/' !in point
    ensures MqttListener.ParseTopic(AssetTopic(kind, asset, point)) == Ok((asset, point))
  {
    assert '/' !in "vibration";
    assert '/' !in kind by {
      if kind == EarlyFaultKind {
        assert '/' !in EarlyFaultKind;
      } else if kind == L2ResultKind {
        assert '/' !in L2ResultKind;
      } else if kind == ScadaKind {
        assert '/' !in ScadaKind;
      } else if kind == HealthAlarmKind {
        assert '/' !in HealthAlarmKind;
      } else {
        assert '/' !in RecommendationKind;
      }
    }
    MqttListener.ParseTopicRoundTrip("vibration", kind, asset, point);
  }

  /** With a `/` in the asset the same topic parses to other names. */
  lemma SlashInAssetMisparses()
    ensures MqttListener.ParseTopic(AssetTopic(EarlyFaultKind, "line/pump", "de")) == Ok(("line", "pump"))
  {
    var prefix := "vibration" + "/" + EarlyFaultKind + "/" + "line" + "/" + "pump";
    PublishedTopicParses(EarlyFaultKind, "line", "pump");
    MqttListener.ParseTopicIgnoresTail(prefix, "de");
    assert AssetTopic(EarlyFaultKind, "line/pump", "de") == prefix + "/" + "de";
  }

  class Publisher {
    /** Every message handed to the MQTT client, in order. */
    ghost var log: seq<Message>

    constructor ()
      ensures log == []
    {
      log := [];
    }

    /** `_publish`: hands the message to the client; a client exception is
        caught and logged, so the caller always continues. */
    method Publish(topic: string, payload: Json)
      modifies this
      ensures log == old(log) + [Message(topic, payload)]
    {
      log := log + [Message(topic, payload)];
    }

    method PublishEarlyFault(asset: string, point: string, payload: Json)
      modifies this
      ensures log == old(log) + [Message(AssetTopic(EarlyFaultKind, asset, point), payload)]
    {
      Publish(AssetTopic(EarlyFaultKind, asset, point), payload);
    }

    method PublishL2Result(asset: string, point: string, payload: Json)
      modifies this
      ensures log == old(log) + [Message(AssetTopic(L2ResultKind, asset, point), payload)]
    {
      Publish(AssetTopic(L2ResultKind, asset, point), payload);
    }

    method PublishScada(asset: string, point: string, payload: Json)
      modifies this
      ensures log == old(log) + [Message(AssetTopic(ScadaKind, asset, point), payload)]
    {
      Publish(AssetTopic(ScadaKind, asset, point), payload);
    }

    method PublishHealthAlarm(asset: string, point: string, payload: Json)
      modifies this
      ensures log == old(log) + [Message(AssetTopic(HealthAlarmKind, asset, point), payload)]
    {
      Publish(AssetTopic(HealthAlarmKind, asset, point), payload);
    }

    method PublishRecommendation(asset: string, point: string, payload: Json)
      modifies this
      ensures log == old(log) + [Message(AssetTopic(RecommendationKind, asset, point), payload)]
    {
      Publish(AssetTopic(RecommendationKind, asset, point), payload);
    }

    method PublishHeartbeat(payload: Json)
      modifies this
      ensures log == old(log) + [Message(HeartbeatTopic, payload)]
    {
      Publish(HeartbeatTopic, payload);
    }

    /** `publish_json`: the topic is passed through unchanged. */
    method PublishJson(topic: string, payload: Json)
      modifies this
      ensures log == old(log) + [Message(topic, payload)]
    {
      Publish(topic, payload);
    }
  }
}
