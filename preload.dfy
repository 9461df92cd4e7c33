/** The preload bridge: the only way the renderer reaches inter-process
    messaging. Outgoing messages pass a channel whitelist; incoming channels
    get at most one listener each, and that listener never sees the event
    object. */
module Preload {
  import opened Host

  /** An argument carried by an IPC message. */
  datatype Value = Str(s: string) | Bool(b: bool) | Num(n: int) | Null | Strs(items: seq<string>)

  /** What `ipcRenderer.send(channel, ...args)` hands to the main process. */
  datatype Message = Message(channel: string, args: seq<Value>)

  /** The channels `send` lets through. */
  const SendChannels: seq<string> := [
    "create-window", "get-file-from-user", "save-markdown",
    "save-html", "show-context-menu", "update-title", "update-document",
    "show-dialog-message"
  ]

  /** The channels `on` accepts a listener for. */
  const ReceiveChannels: seq<string> := [
    "file-opened", "file-changed", "render-markdown-html",
    "save-markdown", "save-html"
  ]

  /** `send`: forwards the message, arguments untouched, iff its channel is
      whitelisted; anything else is dropped without a trace. */
  function Send(channel: string, args: seq<Value>): (forwarded: Option<Message>)
    ensures forwarded.Some? <==> channel in SendChannels
    ensures forwarded.Some? ==> forwarded.value.channel == channel && forwarded.value.args == args
  {
    if channel in SendChannels then Some(Message(channel, args)) else None
  }

  /** The main process listens on "open-file", but the renderer can never
      reach it: the whitelist drops it. */
  lemma OpenFileIsDropped(args: seq<Value>)
    ensures Send("open-file", args) == None
  {
  }

  /** The event object `ipcRenderer` passes to its listeners. */
  datatype IpcEvent = IpcEvent(senderId: int)

  /** The wrapper `(_, ...args) => callback(...args)` that `on` registers. */
  datatype Listener<C> = StripEvent(callback: C)

  /** One call of a renderer callback, with the arguments it received. */
  datatype Call<C> = Call(callback: C, args: seq<Value>)

  /** What a registered wrapper does with an incoming event and arguments. */
  function Invoke<C>(listener: Listener<C>, event: IpcEvent, args: seq<Value>): (call: Call<C>)
    ensures call.callback == listener.callback
    ensures call.args == args
  {
    match listener
    case StripEvent(cb) => Call(cb, args)
  }

  /** Delivery of one incoming message to every listener of its channel, in
      registration order. */
  function Emit<C>(listeners: seq<Listener<C>>, event: IpcEvent, args: seq<Value>): (calls: seq<Call<C>>)
    ensures |calls| == |listeners|
    ensures forall i :: 0 <= i < |listeners| ==> calls[i].callback == listeners[i].callback
    ensures forall i :: 0 <= i < |calls| ==> calls[i].args == args
  {
    if listeners == [] then []
    else [Invoke(listeners[0], event, args)] + Emit(listeners[1..], event, args)
  }

  /** The event object never reaches a callback: delivery does not depend on it. */
  lemma EmitIgnoresEvent<C>(listeners: seq<Listener<C>>, e1: IpcEvent, e2: IpcEvent, args: seq<Value>)
    ensures Emit(listeners, e1, args) == Emit(listeners, e2, args)
  {
  }

  /** The listener table `ipcRenderer` keeps, channel by channel. */
  class Registry<C> {
    var listeners: map<string, seq<Listener<C>>>

    /** Every channel has at most one listener: what `on` keeps true, since
        it clears a channel before adding to it. */
    predicate OneListenerEach()
      reads this
    {
      forall channel | channel in listeners :: |listeners[channel]| <= 1
    }

    constructor ()
      ensures listeners == map[]
      ensures OneListenerEach()
    {
      listeners := map[];
    }

    /** The listeners of one channel, oldest first. */
    function ListenersOf(channel: string): seq<Listener<C>>
      reads this
    {
      if channel in listeners then listeners[channel] else []
    }

    /** `ipcRenderer.removeAllListeners(channel)`. */
    method RemoveAllListeners(channel: string)
      modifies this
      ensures listeners == old(listeners) - {channel}
    {
      listeners := listeners - {channel};
    }

    /** `ipcRenderer.on(channel, listener)`: appends. */
    method AddListener(channel: string, listener: Listener<C>)
      modifies this
      ensures listeners == old(listeners)[channel := old(ListenersOf(channel)) + [listener]]
    {
      listeners := listeners[channel := ListenersOf(channel) + [listener]];
    }

    /** `on`: for a whitelisted channel, replaces every listener of that
        channel by one wrapper around `callback`; other channels are ignored. */
    method On(channel: string, callback: C)
      modifies this
      ensures channel in ReceiveChannels ==> listeners == old(listeners)[channel := [StripEvent(callback)]]
      ensures channel !in ReceiveChannels ==> listeners == old(listeners)
      ensures channel in ReceiveChannels ==> |ListenersOf(channel)| == 1
      ensures old(OneListenerEach()) ==> OneListenerEach()
      ensures channel in ReceiveChannels ==>
        forall e, args :: Emit(ListenersOf(channel), e, args) == [Call(callback, args)]
    {
      if channel in ReceiveChannels {
        RemoveAllListeners(channel);
        AddListener(channel, StripEvent(callback));
        assert ListenersOf(channel) == [StripEvent(callback)];
      }
    }
  }
}
