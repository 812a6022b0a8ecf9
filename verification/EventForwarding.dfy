/** The forwarding loop of the WebSocket layer, draining one subscription object. */
module EventForwarding {
  import opened Common
  import opened BrokerModel
  import opened BrokerJournal
  import opened EventBroker
  import opened PanelStream
  import opened EndToEnd

  /** What goes over the connection: a projection for the compatibility panel, or the envelope. */
  datatype Message = Legacy(raw: RawEvent) | Full(envelope: Envelope)

  function MessagesFor(env: Envelope, compatibility: bool): seq<Message> {
    if !compatibility then [Full(env)]
    else if Forwarded(env).Some? then [Legacy(Forwarded(env).value)]
    else []
  }

  function Messages(envs: seq<Envelope>, compatibility: bool): seq<Message> {
    if envs == [] then [] else MessagesFor(envs[0], compatibility) + Messages(envs[1..], compatibility)
  }

  lemma MessagesHead(head: Envelope, rest: seq<Envelope>, compatibility: bool)
    ensures Messages([head] + rest, compatibility) == MessagesFor(head, compatibility) + Messages(rest, compatibility)
  {
    hide MessagesFor;
    assert ([head] + rest)[1..] == rest;
  }

  lemma {:induction false} MessagesAppend(envs: seq<Envelope>, env: Envelope, compatibility: bool)
    ensures Messages(envs + [env], compatibility) == Messages(envs, compatibility) + MessagesFor(env, compatibility)
    decreases |envs|
  {
    hide MessagesFor;
    if envs == [] {
      assert envs + [env] == [env] + [];
      MessagesHead(env, [], compatibility);
    } else {
      hide Messages;
      MessagesAppend(envs[1..], env, compatibility);
      MessagesHead(envs[0], envs[1..], compatibility);
      MessagesHead(envs[0], envs[1..] + [env], compatibility);
      assert [envs[0]] + envs[1..] == envs;
      Regroup([envs[0]], envs[1..], [env]);
      Regroup(MessagesFor(envs[0], compatibility), Messages(envs[1..], compatibility), MessagesFor(env, compatibility));
    }
  }

  /** Without the compatibility mode every envelope goes out as it is, one message each. */
  lemma {:induction false} FullModeSendsEverything(envs: seq<Envelope>)
    ensures |Messages(envs, false)| == |envs|
    ensures forall i :: 0 <= i < |envs| ==> Messages(envs, false)[i] == Full(envs[i])
    decreases |envs|
  {
    if envs != [] {
      FullModeSendsEverything(envs[1..]);
      assert Messages(envs, false) == [Full(envs[0])] + Messages(envs[1..], false);
    }
  }

  /** The panel's events among the messages. */
  function Raws(messages: seq<Message>): seq<RawEvent> {
    if messages == [] then []
    else (if messages[0].Legacy? then [messages[0].raw] else []) + Raws(messages[1..])
  }

  /** What the compatibility panel becomes depends only on the envelopes handed out. */
  lemma {:induction false} ReceiveIsPanel(p: Stream, envs: seq<Envelope>)
    ensures Receive(p, Raws(Messages(envs, true))) == Panel(p, envs)
    decreases |envs|
  {
    hide Forwarded, Accept;
    if envs != [] {
      var rest := Messages(envs[1..], true);
      var sent := Forwarded(envs[0]);
      if sent.Some? {
        assert ([Legacy(sent.value)] + rest)[1..] == rest;
        assert Raws([Legacy(sent.value)] + rest) == [sent.value] + Raws(rest);
        assert ([sent.value] + Raws(rest))[1..] == Raws(rest);
      } else {
        assert [] + rest == rest;
      }
      ReceiveIsPanel(Handle(p, envs[0]), envs[1..]);
    }
  }

  /** `_forward_v1`, until it would wait or the subscription ends: everything handed out is sent on,
      in order, and a terminal envelope ends the loop. */
  method Forward(s: EventSubscription, compatibility: bool) returns (sent: seq<Message>)
    modifies s
    ensures old(s.delivered) <= s.delivered
    ensures sent == Messages(s.delivered[|old(s.delivered)|..], compatibility)
    ensures s.closed || s.queue == []
  {
    hide MessagesFor;
    sent := [];
    ghost var n := |s.delivered|;
    while !s.closed && s.queue != []
      invariant |s.delivered| >= n && s.delivered[..n] == old(s.delivered)
      invariant sent == Messages(s.delivered[n..], compatibility)
      decreases |s.queue|
    {
      ghost var before := s.delivered;
      var envelope := s.Get();
      if envelope.Some? {
        MessagesAppend(before[n..], envelope.value, compatibility);
        assert s.delivered[n..] == before[n..] + [envelope.value];
        sent := sent + MessagesFor(envelope.value, compatibility);
      }
    }
  }
}
