/**
 * The event bookkeeping of the peer-to-peer extension. Each event is
 * handled either with data loss (a "triggered" flag and the latest data,
 * consumed once) or without (a list of the data of every message, popped
 * one per frame). Peers that connect or disconnect are queued likewise.
 *
 * PeerJS, the connections themselves and the sending side are not part of
 * this model: a connection is identified by its peer id, and a message
 * received on any connection is given to `OnData`.
 */
module P2PTools {
  import opened Common

  /** The data of a message: a string, or `undefined` (`None`). */
  type Payload = Option<string>

  /** What `lastEventData` holds for an event: the latest data, or the list of all data. */
  datatype EventData = Single(payload: Payload) | Queue(items: seq<Payload>)

  /** A message received from a peer; `eventName` is `None` when the message has none. */
  datatype Message = Message(eventName: Option<string>, data: Payload)

  /** What `getEventData` can return: `undefined`, a string, or the list itself. */
  datatype ReadValue = Undefined | Text(s: string) | Array(items: seq<Payload>)

  function PayloadValue(p: Payload): (v: ReadValue)
    ensures p.None? <==> v.Undefined?
    ensures p.Some? ==> v == Text(p.value)
  {
    if p.None? then Undefined else Text(p.value)
  }

  /** The data list after the end-of-frame `pop`: one element fewer when it is a non-empty list. */
  function PopLast(d: EventData): (r: EventData)
    ensures d.Queue? && |d.items| > 0 ==> r == Queue(d.items[..|d.items| - 1])
    ensures !(d.Queue? && |d.items| > 0) ==> r == d
  {
    if d.Queue? && |d.items| > 0 then Queue(d.items[..|d.items| - 1]) else d
  }

  class P2PState {
    /** The handling mode of each event: true for data loss. */
    var eventHandling: map<string, bool>
    var triggeredEvents: map<string, bool>
    var lastEventData: map<string, EventData>
    /** The peer ids of the open connections. */
    var connections: set<string>
    var disconnectedPeers: seq<string>
    var connectedPeers: seq<string>
    var error: bool
    var lastError: string

    /** The event is handled with data loss. */
    predicate DataLoss(eventName: string)
      reads this
    {
      eventName in eventHandling && eventHandling[eventName]
    }

    /**
     * Only events handled with data loss have a triggered flag or a single
     * stored value, and a raised flag always comes with its data.
     */
    ghost predicate Valid()
      reads this
    {
      && (forall n :: n in triggeredEvents ==> DataLoss(n))
      && (forall n :: n in lastEventData && lastEventData[n].Single? ==> DataLoss(n))
      && (forall n :: n in triggeredEvents && triggeredEvents[n] ==> n in lastEventData && lastEventData[n].Single?)
    }

    constructor ()
      ensures Valid()
      ensures eventHandling == map[] && triggeredEvents == map[] && lastEventData == map[]
      ensures connections == {} && disconnectedPeers == [] && connectedPeers == []
      ensures !error && lastError == ""
    {
      eventHandling := map[];
      triggeredEvents := map[];
      lastEventData := map[];
      connections := {};
      disconnectedPeers := [];
      connectedPeers := [];
      error := false;
      lastError := "";
    }

    /**
     * `onEvent`: the first call for an event records its handling mode;
     * later calls ignore `defaultDataLoss`. With data loss, the triggered
     * flag is returned and lowered (false if the event never came); without,
     * the result is whether data is waiting.
     */
    method OnEvent(eventName: string, defaultDataLoss: bool) returns (r: bool)
      requires Valid()
      modifies this
      ensures Valid()
      ensures eventName !in old(eventHandling) ==> eventHandling == old(eventHandling)[eventName := defaultDataLoss]
      ensures eventName in old(eventHandling) ==> eventHandling == old(eventHandling)
      ensures DataLoss(eventName) ==>
        && (r <==> eventName in old(triggeredEvents) && old(triggeredEvents)[eventName])
        && (eventName in old(triggeredEvents) ==> triggeredEvents == old(triggeredEvents)[eventName := false])
        && (eventName !in old(triggeredEvents) ==> triggeredEvents == old(triggeredEvents))
      ensures !DataLoss(eventName) ==>
        && triggeredEvents == old(triggeredEvents)
        && (r <==> eventName in lastEventData && lastEventData[eventName].Queue? && |lastEventData[eventName].items| > 0)
      ensures lastEventData == old(lastEventData) && connections == old(connections)
      ensures disconnectedPeers == old(disconnectedPeers) && connectedPeers == old(connectedPeers)
      ensures error == old(error) && lastError == old(lastError)
    {
      if eventName !in eventHandling {
        eventHandling := eventHandling[eventName := defaultDataLoss];
      }
      var dataLoss := eventHandling[eventName];
      if dataLoss {
        if eventName !in triggeredEvents {
          return false;
        }
        r := triggeredEvents[eventName];
        triggeredEvents := triggeredEvents[eventName := false];
      } else {
        if eventName !in lastEventData {
          return false;
        }
        match lastEventData[eventName]
        case Single(p) =>
          assert false;
        case Queue(items) =>
          r := |items| != 0;
      }
    }

    /**
     * The data handler of a connection: a message without an event name is
     * ignored. Without data loss the data is appended to the event's list
     * (a fresh list when there is none yet); with data loss the event is
     * flagged and its data replaced.
     */
    method OnData(message: Message)
      requires Valid()
      modifies this
      ensures Valid()
      ensures message.eventName.None? ==>
        lastEventData == old(lastEventData) && triggeredEvents == old(triggeredEvents)
      ensures message.eventName.Some? && !DataLoss(message.eventName.value) ==>
        var name := message.eventName.value;
        && triggeredEvents == old(triggeredEvents)
        && lastEventData == old(lastEventData)[name := Queue(
             (if name in old(lastEventData) && old(lastEventData)[name].Queue? then old(lastEventData)[name].items else [])
             + [message.data])]
      ensures message.eventName.Some? && DataLoss(message.eventName.value) ==>
        var name := message.eventName.value;
        && triggeredEvents == old(triggeredEvents)[name := true]
        && lastEventData == old(lastEventData)[name := Single(message.data)]
      ensures eventHandling == old(eventHandling) && connections == old(connections)
      ensures disconnectedPeers == old(disconnectedPeers) && connectedPeers == old(connectedPeers)
      ensures error == old(error) && lastError == old(lastError)
    {
      if message.eventName.None? {
        return;
      }
      var name := message.eventName.value;
      if !DataLoss(name) {
        if !(name in lastEventData && lastEventData[name].Queue?) {
          lastEventData := lastEventData[name := Queue([])];
        }
        lastEventData := lastEventData[name := Queue(lastEventData[name].items + [message.data])];
      } else {
        triggeredEvents := triggeredEvents[name := true];
        lastEventData := lastEventData[name := Single(message.data)];
      }
    }

    /**
     * `getEventData`: without data loss, the last element of the event's
     * list (`undefined` when it is empty; reading it throws when the event
     * never came); with data loss, the stored value.
     */
    function GetEventData(eventName: string): (r: Result<ReadValue>)
      reads this
      ensures !DataLoss(eventName) ==>
        (eventName !in lastEventData ==> r.Throws?)
        && (eventName in lastEventData && lastEventData[eventName].Queue? ==>
              var items := lastEventData[eventName].items;
              r == Ok(if |items| == 0 then Undefined else PayloadValue(items[|items| - 1])))
      ensures DataLoss(eventName) ==>
        (eventName !in lastEventData ==> r == Ok(Undefined))
        && (eventName in lastEventData && lastEventData[eventName].Single? ==> r == Ok(PayloadValue(lastEventData[eventName].payload)))
        && (eventName in lastEventData && lastEventData[eventName].Queue? ==> r == Ok(Array(lastEventData[eventName].items)))
    {
      if !DataLoss(eventName) then
        if eventName !in lastEventData then Throws("Cannot read property 'length' of undefined")
        else match lastEventData[eventName]
          case Queue(items) => Ok(if |items| == 0 then Undefined else PayloadValue(items[|items| - 1]))
          case Single(p) =>
            // A string is indexed at its last character; `undefined` throws.
            if p.None? then Throws("Cannot read property 'length' of undefined")
            else Ok(if |p.value| == 0 then Undefined else Text([p.value[|p.value| - 1]]))
      else if eventName !in lastEventData then Ok(Undefined)
      else match lastEventData[eventName]
        case Single(p) => Ok(PayloadValue(p))
        case Queue(items) => Ok(Array(items))
    }

    /** A raised flag of an event with data loss always comes with readable data. */
    lemma TriggeredEventHasData(eventName: string)
      requires Valid()
      requires eventName in triggeredEvents && triggeredEvents[eventName]
      ensures DataLoss(eventName)
      ensures GetEventData(eventName) == Ok(PayloadValue(lastEventData[eventName].payload))
    {
    }

    /**
     * Without data loss, the data `getEventData` reads is the most recent
     * of those received, and it never throws once some data came.
     */
    lemma WaitingDataIsReadable(eventName: string)
      requires Valid()
      requires !DataLoss(eventName) && eventName in lastEventData
      ensures lastEventData[eventName].Queue?
      ensures GetEventData(eventName).Ok?
      ensures |lastEventData[eventName].items| > 0 ==>
        GetEventData(eventName) == Ok(PayloadValue(lastEventData[eventName].items[|lastEventData[eventName].items| - 1]))
    {
    }

    /** The 'error' handler of the peer: raise the error flag and keep the message. */
    method OnPeerError(errorMessage: string)
      modifies this
      ensures error && lastError == errorMessage
      ensures eventHandling == old(eventHandling) && triggeredEvents == old(triggeredEvents)
      ensures lastEventData == old(lastEventData) && connections == old(connections)
      ensures disconnectedPeers == old(disconnectedPeers) && connectedPeers == old(connectedPeers)
    {
      error := true;
      lastError := errorMessage;
    }

    /** `onError`: the error flag, which is lowered. */
    method OnError() returns (r: bool)
      modifies this
      ensures r == old(error) && !error
      ensures lastError == old(lastError)
      ensures eventHandling == old(eventHandling) && triggeredEvents == old(triggeredEvents)
      ensures lastEventData == old(lastEventData) && connections == old(connections)
      ensures disconnectedPeers == old(disconnectedPeers) && connectedPeers == old(connectedPeers)
    {
      r := error;
      error := false;
    }

    /** `_onConnection`: the connection is recorded under its peer id. */
    method OnConnectionOpen(peerId: string)
      modifies this
      ensures connections == old(connections) + {peerId}
      ensures eventHandling == old(eventHandling) && triggeredEvents == old(triggeredEvents)
      ensures lastEventData == old(lastEventData)
      ensures disconnectedPeers == old(disconnectedPeers) && connectedPeers == old(connectedPeers)
      ensures error == old(error) && lastError == old(lastError)
    {
      connections := connections + {peerId};
    }

    /** A connection a remote peer opened: recorded, and its peer id queued as connected. */
    method OnRemoteConnectionOpen(peerId: string)
      modifies this
      ensures connections == old(connections) + {peerId}
      ensures connectedPeers == old(connectedPeers) + [peerId]
      ensures disconnectedPeers == old(disconnectedPeers)
      ensures eventHandling == old(eventHandling) && triggeredEvents == old(triggeredEvents)
      ensures lastEventData == old(lastEventData)
      ensures error == old(error) && lastError == old(lastError)
    {
      OnConnectionOpen(peerId);
      connectedPeers := connectedPeers + [peerId];
    }

    /** `_onDisconnect`: the peer id is queued as disconnected and its connection forgotten. */
    method OnDisconnect(connectionId: string)
      modifies this
      ensures disconnectedPeers == old(disconnectedPeers) + [connectionId]
      ensures connections == old(connections) - {connectionId}
      ensures connectedPeers == old(connectedPeers)
      ensures eventHandling == old(eventHandling) && triggeredEvents == old(triggeredEvents)
      ensures lastEventData == old(lastEventData)
      ensures error == old(error) && lastError == old(lastError)
    {
      disconnectedPeers := disconnectedPeers + [connectionId];
      connections := connections - {connectionId};
    }

    /** `onDisconnect`: some peer disconnected and was not yet dequeued. */
    function SomePeerDisconnected(): (r: bool)
      reads this
      ensures r <==> disconnectedPeers != []
    {
      |disconnectedPeers| > 0
    }

    /** `onConnection`: some peer connected and was not yet dequeued. */
    function SomePeerConnected(): (r: bool)
      reads this
      ensures r <==> connectedPeers != []
    {
      |connectedPeers| > 0
    }

    /** `getDisconnectedPeer`: the most recently queued id, or "" when none is queued. */
    function GetDisconnectedPeer(): (r: string)
      reads this
      ensures disconnectedPeers == [] ==> r == ""
      ensures disconnectedPeers != [] ==> r == disconnectedPeers[|disconnectedPeers| - 1]
    {
      LastOrEmpty(disconnectedPeers)
    }

    /** `getConnectedPeer`: the most recently queued id, or "" when none is queued. */
    function GetConnectedPeer(): (r: string)
      reads this
      ensures connectedPeers == [] ==> r == ""
      ensures connectedPeers != [] ==> r == connectedPeers[|connectedPeers| - 1]
    {
      LastOrEmpty(connectedPeers)
    }

    /**
     * The callback run after the events of each frame: every non-empty data
     * list loses its last element, and so do the queues of disconnected and
     * connected peers; empty ones and single values are left alone.
     */
    method PostEvents()
      requires Valid()
      modifies this
      ensures Valid()
      ensures lastEventData.Keys == old(lastEventData).Keys
      ensures forall n :: n in lastEventData ==> lastEventData[n] == PopLast(old(lastEventData)[n])
      ensures disconnectedPeers == if old(disconnectedPeers) == [] then [] else old(disconnectedPeers)[..|old(disconnectedPeers)| - 1]
      ensures connectedPeers == if old(connectedPeers) == [] then [] else old(connectedPeers)[..|old(connectedPeers)| - 1]
      ensures eventHandling == old(eventHandling) && triggeredEvents == old(triggeredEvents)
      ensures connections == old(connections) && error == old(error) && lastError == old(lastError)
    {
      var remaining := lastEventData.Keys;
      while remaining != {}
        invariant remaining <= lastEventData.Keys
        invariant lastEventData.Keys == old(lastEventData).Keys
        invariant forall n :: n in lastEventData && n !in remaining ==> lastEventData[n] == PopLast(old(lastEventData)[n])
        invariant forall n :: n in remaining ==> lastEventData[n] == old(lastEventData)[n]
        invariant eventHandling == old(eventHandling) && triggeredEvents == old(triggeredEvents)
        invariant disconnectedPeers == old(disconnectedPeers) && connectedPeers == old(connectedPeers)
        invariant connections == old(connections) && error == old(error) && lastError == old(lastError)
        invariant Valid()
        decreases remaining
      {
        var i :| i in remaining;
        var data := lastEventData[i];
        if data.Queue? && |data.items| > 0 {
          lastEventData := lastEventData[i := Queue(data.items[..|data.items| - 1])];
        }
        remaining := remaining - {i};
      }
      if |disconnectedPeers| > 0 {
        disconnectedPeers := disconnectedPeers[..|disconnectedPeers| - 1];
      }
      if |connectedPeers| > 0 {
        connectedPeers := connectedPeers[..|connectedPeers| - 1];
      }
    }
  }

  /** `list[list.length - 1] || ''`: the last element, or "" for an empty list. */
  function LastOrEmpty(list: seq<string>): (r: string)
    ensures list == [] ==> r == ""
    ensures list != [] ==> r == list[|list| - 1]
  {
    if |list| == 0 then "" else list[|list| - 1]
  }
}
