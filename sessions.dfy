/** What the channel sees of the owning client: its attached browser
    sessions, its log setting and the networks it can resolve a channel to;
    and the calls the channel makes into collaborators it does not own,
    recorded in order. */
module Sessions {
  import opened Options
  import opened Messages

  /** One attached session; `openChannel` is the id of the channel in its
      foreground. */
  datatype AttachedClient = AttachedClient(openChannel: int)

  /** The network a channel belongs to (`target.network`). */
  datatype Network = Network(uuid: string, host: string)

  /** The client object passed to the channel: `attachedClients`, `name`,
      `config.log`, and `find(chanId)` as a map from channel id to the
      network that holds that channel. */
  datatype Client = Client(
    attached: seq<AttachedClient>,
    name: string,
    logEnabled: bool,
    networkOf: map<nat, Network>)
  {
    /** `client.find(chanId)`, reduced to the network it yields. */
    function Find(chanId: nat): (r: Option<Network>)
      ensures r.Some? <==> chanId in networkOf
      ensures r.Some? ==> r.value == networkOf[chanId]
    {
      if chanId in networkOf then Some(networkOf[chanId]) else None
    }
  }

  /** The channel is open somewhere: some attached session has it in its
      foreground. */
  function AnyOpen(attached: seq<AttachedClient>, chanId: int): (r: bool)
    ensures r <==> exists i :: 0 <= i < |attached| && attached[i].openChannel == chanId
  {
    if |attached| == 0 then false
    else attached[0].openChannel == chanId || AnyOpen(attached[1..], chanId)
  }

  /** A `client.emit` call: `"msg"` carries `unread` only when the push
      raised it; `"more"` carries a page of older messages. */
  datatype Event =
    | MsgEvent(chan: nat, msg: Message, unread: Option<nat>)
    | MoreEvent(chan: nat, messages: seq<Message>)

  /** A `messageStorage.index` call. */
  datatype IndexCall = IndexCall(
    networkUuid: string,
    chanName: string,
    seconds: int,
    msgType: MsgType,
    from: string,
    text: string)

  /** A `userLog.write` call. */
  datatype LogCall = LogCall(
    clientName: string,
    networkHost: string,
    targetName: string,
    msg: Message)

  /** The calls the channel has made into the session transport, the
      preview cache, the message index and the user log. */
  class Effects {
    ghost var emitted: seq<Event>
    ghost var dereferenced: seq<string>
    ghost var indexed: seq<IndexCall>
    ghost var logged: seq<LogCall>

    constructor ()
      ensures emitted == [] && dereferenced == [] && indexed == [] && logged == []
    {
      emitted, dereferenced, indexed, logged := [], [], [], [];
    }
  }
}
