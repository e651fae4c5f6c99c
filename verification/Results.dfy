/** The exchange of results: each side sends what it counted on every stream and takes over from the other what the
    other is the authority for. */
module Results {
  import opened Words
  import opened Wrappers
  import opened StreamResults

  /** One stream's entry; the jitter is always sent as zero. */
  datatype Exchange = Exchange(
    id: nat, bytes: uint64, retrans: uint64, jitter: uint64, inPkts: uint64, outPkts: uint64, inSegs: uint64,
    outSegs: uint64, recovered: uint64, start: int, end: int)

  const ZERO_ENTRY: Exchange := Exchange(0, 0, 0, 0, 0, 0, 0, 0, 0, 0, 0)

  function Export(r: Result, receiver: bool, id: nat): Exchange {
    Exchange(id, if receiver then r.received else r.sent, r.retrans.stream, 0, r.packets.inPkts, r.packets.outPkts,
             r.packets.inSegs, r.packets.outSegs, r.packets.recovers, r.startTime, r.endTime)
  }

  /** A receiver takes over what only the sender knows, and the other way around. */
  function Import(r: Result, receiver: bool, e: Exchange): Result {
    if receiver then
      r.(sent := e.bytes, retrans := r.retrans.(stream := e.retrans),
         packets := r.packets.(outSegs := e.outSegs, outPkts := e.outPkts))
    else
      r.(received := e.bytes,
         packets := r.packets.(inSegs := e.inSegs, inPkts := e.inPkts, recovers := e.recovered))
  }

  /** An entry says of a stream what its fields hold. */
  predicate Tells(e: Exchange, sp: StreamResult, receiver: bool, i: nat)
    reads sp
  {
    && e.id == i && e.bytes == (if receiver then sp.bytesReceived else sp.bytesSent)
    && e.retrans == sp.retrans.stream && e.jitter == 0
    && e.inPkts == sp.packets.inPkts && e.outPkts == sp.packets.outPkts
    && e.inSegs == sp.packets.inSegs && e.outSegs == sp.packets.outSegs
    && e.recovered == sp.packets.recovers
    && e.start == sp.startTime && e.end == sp.endTime
  }

  /** `sendResults` up to the encoding: an entry per requested stream, filled in for the streams there are. A stream too
      many is an index out of range. */
  method SendResults(streams: seq<StreamResult>, streamNum: nat, receiver: bool)
    returns (results: Option<seq<Exchange>>)
    ensures results.Some? <==> |streams| <= streamNum
    ensures results.Some? ==>
              && |results.value| == streamNum
              && (forall i :: 0 <= i < |streams| ==> results.value[i] == Export(streams[i].Value(), receiver, i))
              && (forall i :: 0 <= i < |streams| ==> Tells(results.value[i], streams[i], receiver, i))
              && (forall i :: |streams| <= i < streamNum ==> results.value[i] == ZERO_ENTRY)
  {
    var entries := seq(streamNum, i => ZERO_ENTRY);
    for i := 0 to |streams|
      invariant |entries| == streamNum && i <= streamNum
      invariant forall j :: 0 <= j < i ==> entries[j] == Export(streams[j].Value(), receiver, j)
      invariant forall j :: i <= j < streamNum ==> entries[j] == ZERO_ENTRY
    {
      if i >= streamNum {
        return None;
      }
      var rp := streams[i];
      var bytesTransfer;
      if receiver {
        bytesTransfer := rp.bytesReceived;
      } else {
        bytesTransfer := rp.bytesSent;
      }
      entries := entries[i := Exchange(i, bytesTransfer, rp.retrans.stream, 0, rp.packets.inPkts, rp.packets.outPkts,
                                       rp.packets.inSegs, rp.packets.outSegs, rp.packets.recovers,
                                       rp.startTime, rp.endTime)];
    }
    results := Some(entries);
  }

  method TakeOver(rp: StreamResult, e: Exchange, receiver: bool)
    modifies rp
    ensures rp.Value() == Import(old(rp.Value()), receiver, e)
  {
    if receiver {
      rp.bytesSent := e.bytes;
      rp.retrans := rp.retrans.(stream := e.retrans);
      rp.packets := rp.packets.(outSegs := e.outSegs);
      rp.packets := rp.packets.(outPkts := e.outPkts);
    } else {
      rp.bytesReceived := e.bytes;
      rp.packets := rp.packets.(inSegs := e.inSegs);
      rp.packets := rp.packets.(inPkts := e.inPkts);
      rp.packets := rp.packets.(recovers := e.recovered);
    }
  }

  /** `getResults` after the decoding. An entry too many is an index out of range, after the others have been taken
      over. */
  method GetResults(streams: seq<StreamResult>, results: seq<Exchange>, receiver: bool) returns (ok: bool)
    requires forall i, j :: 0 <= i < j < |streams| ==> streams[i] != streams[j]
    modifies streams
    ensures ok <==> |results| <= |streams|
    ensures forall i :: 0 <= i < |streams| ==>
              streams[i].Value() == if i < |results| then Import(old(streams[i].Value()), receiver, results[i])
                                    else old(streams[i].Value())
  {
    for i := 0 to |results|
      invariant i <= |streams|
      invariant forall j :: 0 <= j < |streams| ==>
                  streams[j].Value() == if j < i then Import(old(streams[j].Value()), receiver, results[j])
                                        else old(streams[j].Value())
    {
      if i >= |streams| {
        return false;
      }
      TakeOver(streams[i], results[i], receiver);
    }
    ok := true;
  }

  // ---------- agreement ----------

  /** The two sides of a stream say the same about it. */
  predicate Agree(a: Result, b: Result) {
    && a.sent == b.sent && a.received == b.received
    && a.retrans.stream == b.retrans.stream
    && a.packets.outSegs == b.packets.outSegs && a.packets.outPkts == b.packets.outPkts
    && a.packets.inSegs == b.packets.inSegs && a.packets.inPkts == b.packets.inPkts
    && a.packets.recovers == b.packets.recovers
  }

  /** What a side has measured itself, and no exchange may change. */
  predicate KeepsOwn(before: Result, after: Result, receiver: bool) {
    && (if receiver then
          && after.received == before.received && after.retrans.prev == before.retrans.prev
          && after.packets.inSegs == before.packets.inSegs
          && after.packets.inPkts == before.packets.inPkts && after.packets.recovers == before.packets.recovers
        else
          && after.sent == before.sent && after.retrans == before.retrans
          && after.packets.outSegs == before.packets.outSegs && after.packets.outPkts == before.packets.outPkts)
    && after.packets.repeats == before.packets.repeats
    && after.sentNow == before.sentNow && after.receivedNow == before.receivedNow
    && after.startTime == before.startTime && after.endTime == before.endTime
    && after.intervals == before.intervals && after.rtt == before.rtt
    && after.lost == before.lost && after.early == before.early && after.fast == before.fast
  }

  lemma StreamAgrees(c: Result, s: Result, clientReceives: bool, i: nat)
    ensures var s1 := Import(s, !clientReceives, Export(c, clientReceives, i));
            var c1 := Import(c, clientReceives, Export(s1, !clientReceives, i));
            Agree(c1, s1) && KeepsOwn(c, c1, clientReceives) && KeepsOwn(s, s1, !clientReceives)
  {
  }

  /** Both halves of `exchangeResults` over a connection that loses nothing: the client sends first and reads second,
      the server reads first and sends second. Afterwards both sides say the same about every stream, and neither has
      lost what it measured itself, whichever of them is the receiver. */
  method ExchangeResults(client: seq<StreamResult>, server: seq<StreamResult>, streamNum: nat, clientReceives: bool)
    returns (ok: bool)
    requires |client| == |server| == streamNum
    requires forall i, j :: 0 <= i < j < streamNum ==> client[i] != client[j] && server[i] != server[j]
    requires forall i, j :: 0 <= i < streamNum && 0 <= j < streamNum ==> client[i] != server[j]
    modifies client, server
    ensures ok
    ensures forall i :: 0 <= i < streamNum ==>
              && Agree(client[i].Value(), server[i].Value())
              && KeepsOwn(old(client[i].Value()), client[i].Value(), clientReceives)
              && KeepsOwn(old(server[i].Value()), server[i].Value(), !clientReceives)
  {
    var up := SendResults(client, streamNum, clientReceives);
    ok := GetResults(server, up.value, !clientReceives);
    var down := SendResults(server, streamNum, !clientReceives);
    ok := GetResults(client, down.value, clientReceives);
    forall i | 0 <= i < streamNum
      ensures Agree(client[i].Value(), server[i].Value())
      ensures KeepsOwn(old(client[i].Value()), client[i].Value(), clientReceives)
      ensures KeepsOwn(old(server[i].Value()), server[i].Value(), !clientReceives)
    {
      StreamAgrees(old(client[i].Value()), old(server[i].Value()), clientReceives, i);
    }
  }
}
