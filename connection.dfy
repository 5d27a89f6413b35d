/**
 * One websocket connection: a fixed id, a tag store for application state and
 * a buffered queue of outgoing text that the write pump flushes.
 */
module WssConnection {
  import opened Base

  /** The values the application attaches: the logged-in player and the game joined. */
  datatype TagValue = PlayerTag(player: Player) | GameTag(gameId: int)

  /** What one round of the write pump puts on the wire. */
  datatype Frame =
    | Idle               // nothing queued: the pump keeps waiting
    | Text(data: string) // one text frame holding every queued message
    | Close              // the queue was closed and is drained: close frame, pump ends

  /** The bytes of a run of messages written back to back. */
  function Concat(messages: seq<string>): string
  {
    if messages == [] then "" else Concat(messages[..|messages| - 1]) + messages[|messages| - 1]
  }

  class Connection {
    const id: ConnId
    var tags: map<string, TagValue>
    /** Messages queued and not yet written, oldest first. */
    var send: seq<string>
    /** False once the hub has closed the queue. */
    var sendOpen: bool

    /** newConnection: the id comes from the UUID generator. */
    constructor (id: ConnId)
      ensures this.id == id
      ensures tags == map[] && send == [] && sendOpen
    {
      this.id := id;
      tags := map[];
      send := [];
      sendOpen := true;
    }

    function ID(): ConnId
    {
      id
    }

    /** SetTag: overwrites this key and no other. */
    method SetTag(key: string, value: TagValue)
      modifies this`tags
      ensures tags == old(tags)[key := value]
    {
      tags := tags[key := value];
    }

    /** GetTag: the value stored under the key, and whether there is one. */
    method GetTag(key: string) returns (value: Option<TagValue>, found: bool)
      ensures found <==> key in tags
      ensures found ==> value == Some(tags[key])
      ensures !found ==> value == None
    {
      found := key in tags;
      value := if found then Some(tags[key]) else None;
    }

    /** SendMessage: queues the message behind everything queued before it. */
    method SendMessage(message: string)
      requires sendOpen
      modifies this`send
      ensures send == old(send) + [message]
    {
      send := send + [message];
    }

    /** close(send), done by the hub when it drops the connection. */
    method CloseSend()
      requires sendOpen
      modifies this`sendOpen
      ensures !sendOpen
    {
      sendOpen := false;
    }

    /**
     * One round of the write pump: take the oldest message, then as many as
     * are queued at that moment, and write them into one frame in FIFO order.
     */
    method WriteRound() returns (frame: Frame)
      modifies this`send
      ensures old(send) != [] ==> frame == Text(Concat(old(send))) && send == []
      ensures old(send) == [] ==> send == [] && frame == (if sendOpen then Idle else Close)
    {
      if send == [] {
        return if sendOpen then Idle else Close;
      }
      var data := send[0];
      send := send[1..];
      var n := |send|;
      var i := 0;
      while i < n
        invariant 0 <= i <= n == |old(send)| - 1
        invariant send == old(send)[i + 1..]
        invariant data == Concat(old(send)[..i + 1])
      {
        assert old(send)[..i + 2][..i + 1] == old(send)[..i + 1];
        data := data + send[0];
        send := send[1..];
        i := i + 1;
      }
      assert old(send)[..n + 1] == old(send);
      frame := Text(data);
    }
  }
}
