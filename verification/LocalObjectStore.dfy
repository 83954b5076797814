// go/cmd/localobjstore/main.go: the object store of one node. Shared memory is a
// map from uid to bytes that is written before the size is published. A call that
// blocks on a channel is split at that point.
module LocalObjectStore {
  import opened Types

  datatype NodeStore = NodeStore(memory: map<Uid, Bytes>, sizes: map<Uid, nat>)

  const EMPTY_STORE := NodeStore(map[], map[])

  predicate Has(s: NodeStore, uid: Uid) {
    uid in s.sizes
  }

  function WriteMemory(s: NodeStore, uid: Uid, bytes: Bytes): NodeStore {
    s.(memory := s.memory[uid := bytes])
  }

  function Publish(s: NodeStore, uid: Uid, size: nat): NodeStore {
    s.(sizes := s.sizes[uid := size])
  }

  // Copy maps as many bytes as the published size says.
  function Copied(s: NodeStore, uid: Uid): Result<Bytes> {
    if uid in s.sizes && uid in s.memory && s.sizes[uid] <= |s.memory[uid]|
    then Ok(s.memory[uid][..s.sizes[uid]])
    else Err
  }

  // What a published size promises of the memory behind it.
  ghost predicate Published(s: NodeStore) {
    forall u :: u in s.sizes ==> u in s.memory && s.sizes[u] == |s.memory[u]|
  }

  // Writing and then publishing makes the bytes what a copy returns, and disturbs
  // no other object; in between, a copy may still see the old size.
  lemma StoredIsCopied(s: NodeStore, uid: Uid, bytes: Bytes, other: Uid)
    requires Published(s)
    ensures var s' := Publish(WriteMemory(s, uid, bytes), uid, |bytes|);
            && Published(s')
            && Copied(s', uid) == Ok(bytes)
            && (other != uid ==> Copied(s', other) == Copied(s, other))
            && (Copied(s, other).Err? <==> !Has(s, other))
  {
    var s' := Publish(WriteMemory(s, uid, bytes), uid, |bytes|);
    assert bytes[..|bytes|] == bytes;
  }

  // NotifyOwns as a store sends it; a cached copy leaves the size unset.
  datatype Notice = Notice(uid: Uid, node: NodeId, objectSize: nat)

  // Of the Gets that made a channel, in the order in which they did, number c is
  // the last one for its uid.
  ghost predicate IsLatest(askedFor: seq<Uid>, uid: Uid, c: nat) {
    c < |askedFor| && askedFor[c] == uid && forall d :: c < d < |askedFor| ==> askedFor[d] != uid
  }

  class Server {
    var memory: map<Uid, Bytes>
    var objectSizes: map<Uid, nat>
    var localObjectChannels: map<Uid, nat>  // uid -> the channel its callback goes to
    var channels: nat                       // channels made so far
    const localNodeID: NodeId

    ghost var askedFor: seq<Uid>            // the uid that each channel was made for

    // Each uid asked for has the channel of the last Get that asked for it.
    ghost predicate Valid()
      reads `channels, `localObjectChannels, `askedFor
    {
      && |askedFor| == channels
      && (forall u :: u in localObjectChannels <==> u in askedFor)
      && (forall u :: u in localObjectChannels ==> IsLatest(askedFor, u, localObjectChannels[u]))
    }

    ghost function View(): NodeStore
      reads this
    {
      NodeStore(memory, objectSizes)
    }

    constructor (nodeId: NodeId)
      ensures Valid() && View() == EMPTY_STORE && localNodeID == nodeId && askedFor == []
    {
      localNodeID := nodeId;
      memory, objectSizes, localObjectChannels, channels := map[], map[], map[], 0;
      askedFor := [];
    }

    // Creating the segment may fail; then nothing is published or announced.
    method Store(uid: Uid, objectBytes: Bytes, failed: bool) returns (notice: Result<Notice>)
      modifies `memory, `objectSizes
      ensures notice.Err? <==> failed
      ensures !failed ==>
              && memory == old(memory)[uid := objectBytes] && objectSizes == old(objectSizes)[uid := |objectBytes|]
              && notice == Ok(Notice(uid, localNodeID, |objectBytes|))
      ensures notice.Err? ==> View() == old(View())
      ensures notice.Ok? ==>
              && View() == Publish(WriteMemory(old(View()), uid, objectBytes), uid, |objectBytes|)
              && notice.value == Notice(uid, localNodeID, |objectBytes|)
    {
      var size := |objectBytes|;
      if failed {
        return Err;
      }
      memory := memory[uid := objectBytes];
      objectSizes := objectSizes[uid := size];
      notice := Ok(Notice(uid, localNodeID, size));
    }

    // The first half of Get: answers from the published sizes, or registers a
    // fresh channel and asks for the location.
    method GetStart(uid: Uid) returns (local: Option<nat>, waitOn: nat)
      requires Valid()
      modifies `localObjectChannels, `channels, `askedFor
      ensures Valid()
      ensures local == if Has(old(View()), uid) then Some(objectSizes[uid]) else None
      ensures local.Some? ==> localObjectChannels == old(localObjectChannels) && askedFor == old(askedFor)
      ensures local.None? ==>
              && askedFor == old(askedFor) + [uid] && IsLatest(askedFor, uid, waitOn)
              && localObjectChannels == old(localObjectChannels)[uid := waitOn]
              && forall u :: u in old(localObjectChannels) ==> old(localObjectChannels)[u] != waitOn
    {
      if uid in objectSizes {
        return Some(objectSizes[uid]), 0;
      }
      local, waitOn := None, channels;
      channels := channels + 1;
      askedFor := askedFor + [uid];
      localObjectChannels := localObjectChannels[uid := waitOn];
    }

    // However many Gets have asked for a uid, a callback about it goes to the last
    // of them; if none has, it is sent on a nil channel and nobody gets it.
    method LocationFound(uid: Uid) returns (channel: Option<nat>)
      requires Valid()
      ensures channel.Some? <==> uid in askedFor
      ensures channel.Some? ==> IsLatest(askedFor, uid, channel.value)
    {
      channel := if uid in localObjectChannels then Some(localObjectChannels[uid]) else None;
    }

    // The last part of Get: keeps the copied bytes if asked to. Creating the
    // segment may fail, which is an error of the Get.
    method GetFinish(uid: Uid, copied: Bytes, cache: bool, failed: bool) returns (notice: Result<Option<Notice>>)
      modifies `memory, `objectSizes
      ensures notice.Err? <==> cache && failed
      ensures cache && !failed ==>
              && memory == old(memory)[uid := copied] && objectSizes == old(objectSizes)[uid := |copied|]
              && notice == Ok(Some(Notice(uid, localNodeID, 0)))
      ensures notice.Err? ==> cache && View() == old(View())
      ensures notice == Ok(None) <==> !cache
      ensures notice == Ok(None) ==> View() == old(View())
      ensures notice.Ok? && notice.value.Some? ==>
              && View() == Publish(WriteMemory(old(View()), uid, copied), uid, |copied|)
              && notice.value.value == Notice(uid, localNodeID, 0)
    {
      if !cache {
        return Ok(None);
      }
      if failed {
        return Err;
      }
      memory := memory[uid := copied];
      objectSizes := objectSizes[uid := |copied|];
      notice := Ok(Some(Notice(uid, localNodeID, 0)));
    }

    method Copy(uid: Uid) returns (bytes: Result<Bytes>)
      ensures bytes == Copied(View(), uid)
      ensures uid !in objectSizes ==> bytes.Err?
      ensures uid in objectSizes && uid in memory && objectSizes[uid] == |memory[uid]| ==> bytes == Ok(memory[uid])
    {
      if uid !in objectSizes {
        return Err;
      }
      var size := objectSizes[uid];
      if uid !in memory || |memory[uid]| < size {
        return Err;
      }
      assert memory[uid][..|memory[uid]|] == memory[uid];
      bytes := Ok(memory[uid][..size]);
    }
  }
}
