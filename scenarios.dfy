/** Worked runs of the relay and the chat component, checked statically. */
module Scenarios {
  import opened Options
  import opened AgentReply
  import opened RunPolling
  import opened Relay
  import opened JsString
  import opened ChatUi

  /** A session's first call creates its thread; a failed creation is retried; later calls reuse it. */
  method ThreadReuse() {
    var table := new ThreadTable();
    var service := new AgentService("agent-1", table);
    var r := service.GetOrCreateThread("s1", None);
    assert r == Err(ThreadCreationFailed) && table.threads == map[];
    r := service.GetOrCreateThread("s1", Some("t-1"));
    assert r == Ok("t-1") && service.calls == [CreateThread, CreateThread];
    r := service.GetOrCreateThread("s1", Some("t-2"));
    assert r == Ok("t-1") && service.calls == [CreateThread, CreateThread];
    var other := new AgentService("agent-1", table);
    r := other.GetOrCreateThread("s1", Some("t-3"));
    assert r == Ok("t-1") && other.calls == [];
  }

  /** Empty arguments are refused before any remote call. */
  method MissingArgumentsRefused(remote: Remote) {
    var table := new ThreadTable();
    var service := new AgentService("agent-1", table);
    var o := service.ProcessMessage("", "hi", remote);
    assert o == Raised(MissingArguments) && service.calls == [];
    o := service.ProcessMessage("s1", "", remote);
    assert o == Raised(MissingArguments) && service.calls == [];
  }

  /** Sending "Hello" in basic mode with retrieval on, answered by `{reply: "Hi!", sources: ["doc1"]}`. */
  method SendHello() {
    var chat := new ChatInterface([]);
    chat.ConnectedCallback();
    chat.HandleInput("Hello");
    assert TrimStart("Hello") == "Hello";
    assert HasText("Hello");
    chat.SendMessage(Response(200, Some(Payload("Hi!", Some(["doc1"])))));
    assert chat.messages == [User("Hello"), Assistant("Hi!", ["doc1"])];
    assert chat.requests == [ChatRequest("Hello", true, BasicMode)];
    assert chat.store == chat.messages;
  }

  /** Switching from basic to agent mode clears the log and turns retrieval off. */
  method SwitchToAgent() {
    var chat := new ChatInterface([User("old")]);
    chat.ConnectedCallback();
    assert chat.messages == [User("old")] && chat.ragEnabled;
    chat.HandleModeChange(AgentMode);
    assert chat.messages == [] && chat.store == [] && !chat.ragEnabled;
    chat.HandleModeChange(BasicMode);
    assert chat.chatMode == BasicMode && !chat.ragEnabled;
  }
}
