/**
 * The UDP asset transfers of the AssetModule: an AssetTransfer collects the
 * indexed chunks of one asset, and the AssetManager keeps the in-flight
 * transfers (generic assets and textures apart) and the completed assets,
 * each keyed by asset UUID.
 */
module Asset {
  import opened Wrappers
  import opened NetMessage

  /** Packet indices are Core::uint: every index is below this bound. */
  const IndexBound: nat := 0x1_0000_0000

  /** DataPacketMap: packet index -> chunk; one chunk per index. */
  type PacketMap = map<uint32, seq<byte>>

  /** The number of bytes stored at indices below n. */
  function BytesBelow(m: PacketMap, n: nat): nat
    requires n <= IndexBound
  {
    if n == 0 then 0 else BytesBelow(m, n - 1) + (if n - 1 in m then |m[n - 1]| else 0)
  }

  /** The chunks stored at indices below n, in ascending index order. */
  function DataBelow(m: PacketMap, n: nat): seq<byte>
    requires n <= IndexBound
  {
    if n == 0 then [] else DataBelow(m, n - 1) + (if n - 1 in m then m[n - 1] else [])
  }

  /** The first index at or after i that has no chunk (or the bound). */
  function RunFrom(m: PacketMap, i: nat): (r: nat)
    requires i <= IndexBound
    decreases IndexBound - i
    ensures i <= r <= IndexBound
    ensures forall j :: i <= j < r ==> j in m
    ensures r < IndexBound ==> r !in m
  {
    if i < IndexBound && i in m then RunFrom(m, i + 1) else i
  }

  /** Every stored byte. */
  function Received(m: PacketMap): nat {
    BytesBelow(m, IndexBound)
  }

  /** The bytes of the unbroken run of indices 0, 1, 2, ... */
  function ContinuousBytes(m: PacketMap): nat {
    BytesBelow(m, RunFrom(m, 0))
  }

  function ContinuousData(m: PacketMap): seq<byte> {
    DataBelow(m, RunFrom(m, 0))
  }

  lemma {:induction false} BytesBelowEmpty(n: nat)
    requires n <= IndexBound
    ensures BytesBelow(map[], n) == 0
  {
    if n > 0 {
      BytesBelowEmpty(n - 1);
    }
  }

  lemma {:induction false} BytesBelowMonotone(m: PacketMap, a: nat, b: nat)
    requires a <= b <= IndexBound
    decreases b - a
    ensures BytesBelow(m, a) <= BytesBelow(m, b)
  {
    if a < b {
      BytesBelowMonotone(m, a, b - 1);
    }
  }

  /** Storing v at k replaces the bytes counted for k, if k is below n. */
  lemma {:induction false} BytesBelowUpdate(m: PacketMap, k: uint32, v: seq<byte>, n: nat)
    requires n <= IndexBound
    ensures BytesBelow(m[k := v], n) + (if k < n && k in m then |m[k]| else 0)
            == BytesBelow(m, n) + (if k < n then |v| else 0)
  {
    if n > 0 {
      BytesBelowUpdate(m, k, v, n - 1);
    }
  }

  lemma {:induction false} DataBelowLength(m: PacketMap, n: nat)
    requires n <= IndexBound
    ensures |DataBelow(m, n)| == BytesBelow(m, n)
  {
    if n > 0 {
      DataBelowLength(m, n - 1);
    }
  }

  /** The continuous run never counts more than is stored. */
  lemma ContinuousAtMostReceived(m: PacketMap)
    ensures ContinuousBytes(m) <= Received(m)
  {
    BytesBelowMonotone(m, RunFrom(m, 0), IndexBound);
  }

  /** When the run covers the declared size, the assembled bytes are exactly that long. */
  lemma ContinuousDataLength(m: PacketMap)
    ensures |ContinuousData(m)| == ContinuousBytes(m)
  {
    DataBelowLength(m, RunFrom(m, 0));
  }

  // ---------------------------------------------------------------------
  // Arrival order

  /** The packet map after receiving the packets in the given order. */
  function ReceiveAll(m: PacketMap, ps: seq<(uint32, seq<byte>)>): PacketMap
    decreases |ps|
  {
    if ps == [] then m else ReceiveAll(m, ps[..|ps| - 1])[ps[|ps| - 1].0 := ps[|ps| - 1].1]
  }

  ghost predicate DistinctIndices(ps: seq<(uint32, seq<byte>)>) {
    forall i, j :: 0 <= i < j < |ps| ==> ps[i].0 != ps[j].0
  }

  /** With distinct indices every packet's chunk is stored and all other indices keep what they had. */
  lemma {:induction false} ReceiveAllContents(m: PacketMap, ps: seq<(uint32, seq<byte>)>)
    requires DistinctIndices(ps)
    decreases |ps|
    ensures forall k :: k in ReceiveAll(m, ps) <==> k in m || exists p :: p in ps && p.0 == k
    ensures forall p :: p in ps ==> ReceiveAll(m, ps)[p.0] == p.1
    ensures forall k :: k in m && (forall p :: p in ps ==> p.0 != k) ==> ReceiveAll(m, ps)[k] == m[k]
  {
    if ps != [] {
      var init, last := ps[..|ps| - 1], ps[|ps| - 1];
      ReceiveAllContents(m, init);
      assert forall p :: p in ps <==> p in init || p == last;
      forall p | p in init
        ensures p.0 != last.0
      {
        var i :| 0 <= i < |init| && init[i] == p;
        assert ps[i] == p;
      }
    }
  }

  /** Two arrival orders of the same packets agree at each index. */
  lemma SamePacketsSameEntry(m: PacketMap, ps: seq<(uint32, seq<byte>)>, qs: seq<(uint32, seq<byte>)>, k: uint32)
    requires DistinctIndices(ps) && DistinctIndices(qs)
    requires forall p :: p in ps <==> p in qs
    ensures k in ReceiveAll(m, ps) <==> k in ReceiveAll(m, qs)
    ensures k in ReceiveAll(m, ps) ==> ReceiveAll(m, ps)[k] == ReceiveAll(m, qs)[k]
  {
    ReceiveAllContents(m, ps);
    ReceiveAllContents(m, qs);
    if p :| p in ps && p.0 == k {
      assert p in qs;
    } else {
      assert forall q :: q in qs ==> q.0 != k;
    }
  }

  /** Packets with distinct indices give the same map in any arrival order. */
  lemma ArrivalOrderIrrelevant(m: PacketMap, ps: seq<(uint32, seq<byte>)>, qs: seq<(uint32, seq<byte>)>)
    requires DistinctIndices(ps) && DistinctIndices(qs)
    requires multiset(ps) == multiset(qs)
    ensures ReceiveAll(m, ps) == ReceiveAll(m, qs)
  {
    forall p
      ensures p in ps <==> p in qs
    {
      assert p in ps <==> p in multiset(ps);
      assert p in qs <==> p in multiset(qs);
    }
    var a, b := ReceiveAll(m, ps), ReceiveAll(m, qs);
    forall k: uint32
      ensures (k in a <==> k in b) && (k in a ==> a[k] == b[k])
    {
      SamePacketsSameEntry(m, ps, qs, k);
    }
    assert a.Keys == b.Keys;
  }

  /** A retransmitted packet changes nothing; a different chunk at the same index replaces the first. */
  lemma RetransmitIdempotent(m: PacketMap, k: uint32, v: seq<byte>, w: seq<byte>)
    ensures m[k := v][k := v] == m[k := v]
    ensures m[k := v][k := w] == m[k := w]
  {
  }

  // ---------------------------------------------------------------------
  // Assets and transfers

  /** A completely received asset. */
  datatype Asset = Asset(assetType: uint32, data: seq<byte>)

  class AssetTransfer {
    var assetType: uint32
    var size: uint32
    var received: nat
    var dataPackets: PacketMap

    /** received_ counts every stored byte once. */
    ghost predicate Valid()
      reads this
    {
      received == Received(dataPackets)
    }

    ghost predicate IsReady()
      reads this
    {
      ContinuousBytes(dataPackets) == size
    }

    constructor ()
      ensures Valid()
      ensures assetType == 0 && size == 0 && dataPackets == map[]
    {
      assetType := 0;
      size := 0;
      received := 0;
      dataPackets := map[];
      BytesBelowEmpty(IndexBound);
    }

    /** Reads back the type SetAssetType stored. */
    function GetAssetType(): (r: uint32)
      reads this
      ensures r == assetType
    {
      assetType
    }

    /** The declared size; the transfer is ready exactly when the continuous bytes reach it. */
    function GetSize(): (r: uint32)
      reads this
      ensures r == size
      ensures IsReady() <==> ContinuousBytes(dataPackets) == r
    {
      size
    }

    function GetReceived(): (r: nat)
      reads this
      requires Valid()
      ensures r == Received(dataPackets)
    {
      received
    }

    method SetAssetType(t: uint32)
      modifies this`assetType
      ensures GetAssetType() == t
    {
      assetType := t;
    }

    method SetSize(n: uint32)
      modifies this`size
      ensures GetSize() == n
    {
      size := n;
    }

    /** Stores the chunk at its index, replacing an earlier one, and keeps the byte count exact. */
    method ReceiveData(packetIndex: uint32, data: seq<byte>)
      requires Valid()
      modifies this`dataPackets, this`received
      ensures Valid()
      ensures dataPackets == old(dataPackets)[packetIndex := data]
    {
      BytesBelowUpdate(dataPackets, packetIndex, data, IndexBound);
      var replaced := if packetIndex in dataPackets then |dataPackets[packetIndex]| else 0;
      received := received + |data| - replaced;
      dataPackets := dataPackets[packetIndex := data];
    }

    /** Walks the indices from 0 while each has a chunk, adding up their sizes. */
    method GetReceivedContinuous() returns (r: nat)
      ensures r == ContinuousBytes(dataPackets)
    {
      r := 0;
      var i: nat := 0;
      while i < IndexBound && i in dataPackets
        invariant i <= IndexBound
        invariant RunFrom(dataPackets, i) == RunFrom(dataPackets, 0)
        invariant r == BytesBelow(dataPackets, i)
        decreases IndexBound - i
      {
        r := r + |dataPackets[i]|;
        i := i + 1;
      }
    }

    method Ready() returns (r: bool)
      ensures r <==> IsReady()
    {
      var continuous := GetReceivedContinuous();
      r := continuous == size;
    }

    /** Copies the chunks 0, 1, 2, ... one after another into the caller's buffer of the declared size. */
    method AssembleData(buffer: array<byte>)
      requires IsReady() && buffer.Length == size
      modifies buffer
      ensures buffer[..] == ContinuousData(dataPackets)
    {
      var pos: nat := 0;
      var i: nat := 0;
      while i < IndexBound && i in dataPackets
        invariant i <= IndexBound
        invariant RunFrom(dataPackets, i) == RunFrom(dataPackets, 0)
        invariant pos == BytesBelow(dataPackets, i) <= buffer.Length
        invariant buffer[..pos] == DataBelow(dataPackets, i)
        decreases IndexBound - i
      {
        var chunk := dataPackets[i];
        assert DataBelow(dataPackets, i + 1) == DataBelow(dataPackets, i) + chunk;
        BytesBelowMonotone(dataPackets, i + 1, RunFrom(dataPackets, 0));
        MemCopy(buffer, pos, chunk);
        assert buffer[..pos + |chunk|] == buffer[..pos] + buffer[pos..pos + |chunk|];
        pos := pos + |chunk|;
        i := i + 1;
      }
      assert buffer[..] == buffer[..pos];
    }
  }

  // ---------------------------------------------------------------------
  // The manager

  /** The asset type RequestAsset treats as a texture (its numeric value is an assumption of this model). */
  const TextureAssetType: uint32 := 0

  /** What the manager asks of the network interface. */
  datatype OutboundRequest = TextureRequest(id: UUID) | OtherAssetRequest(id: UUID, assetType: uint32)

  /** Which ids are completed or in flight, and the requests sent so far. */
  datatype Registry = Registry(
    completed: set<UUID>,
    assetTransfers: set<UUID>,
    textureTransfers: set<UUID>,
    requests: seq<OutboundRequest>)

  /**
   * RequestAsset on the registry: a completed asset is a cache hit, an id
   * already in flight in its registry is not requested again, and otherwise
   * a transfer is opened and one request goes out on the texture or the
   * generic channel.
   */
  function AfterRequest(r: Registry, id: UUID, t: uint32): Registry {
    if id in r.completed then r
    else if t == TextureAssetType then
      if id in r.textureTransfers then r
      else r.(textureTransfers := r.textureTransfers + {id}, requests := r.requests + [TextureRequest(id)])
    else
      if id in r.assetTransfers then r
      else r.(assetTransfers := r.assetTransfers + {id}, requests := r.requests + [OtherAssetRequest(id, t)])
  }

  /** Requesting twice before completion sends exactly one request. */
  lemma RequestDeduplicated(r: Registry, id: UUID, t: uint32)
    ensures AfterRequest(AfterRequest(r, id, t), id, t) == AfterRequest(r, id, t)
    ensures |AfterRequest(r, id, t).requests| <= |r.requests| + 1
  {
  }

  /** A completed asset is never requested again. */
  lemma CompletedIsCacheHit(r: Registry, id: UUID, t: uint32)
    requires id in r.completed
    ensures AfterRequest(r, id, t) == r
  {
  }

  /** A new request goes to the texture channel exactly when the type is the texture type. */
  lemma RequestRoutesByType(r: Registry, id: UUID, t: uint32)
    requires |AfterRequest(r, id, t).requests| > |r.requests|
    ensures var q := AfterRequest(r, id, t).requests;
            q[..|r.requests|] == r.requests && q[|q| - 1].id == id &&
            (q[|q| - 1].TextureRequest? <==> t == TextureAssetType)
  {
  }

  class AssetManager {
    /** assets_: completely received assets. */
    var assets: map<UUID, Asset>
    /** asset_transfers_: ongoing UDP asset transfers. */
    var assetTransfers: map<UUID, AssetTransfer>
    /** texture_transfers_: ongoing UDP texture transfers. */
    var textureTransfers: map<UUID, AssetTransfer>
    /** The requests handed to the network interface, oldest first. */
    var requests: seq<OutboundRequest>

    ghost function RegistryState(): Registry
      reads this
    {
      Registry(assets.Keys, assetTransfers.Keys, textureTransfers.Keys, requests)
    }

    constructor ()
      ensures assets == map[] && assetTransfers == map[] && textureTransfers == map[] && requests == []
    {
      assets := map[];
      assetTransfers := map[];
      textureTransfers := map[];
      requests := [];
    }

    /** GetAsset: consults the completed store only. */
    method GetAsset(id: UUID) returns (r: Option<Asset>)
      ensures r.Some? <==> id in assets
      ensures r.Some? ==> r.value == assets[id]
    {
      if id in assets {
        r := Some(assets[id]);
      } else {
        r := None;
      }
    }

    method RequestAsset(id: UUID, t: uint32)
      modifies this
      ensures RegistryState() == AfterRequest(old(RegistryState()), id, t)
      ensures assets == old(assets)
      ensures forall k :: k in old(assetTransfers) ==> assetTransfers[k] == old(assetTransfers)[k]
      ensures forall k :: k in old(textureTransfers) ==> textureTransfers[k] == old(textureTransfers)[k]
      ensures id in assetTransfers && id !in old(assetTransfers) ==>
                fresh(assetTransfers[id]) && assetTransfers[id].Valid() &&
                assetTransfers[id].assetType == t && assetTransfers[id].dataPackets == map[]
      ensures id in textureTransfers && id !in old(textureTransfers) ==>
                fresh(textureTransfers[id]) && textureTransfers[id].Valid() &&
                textureTransfers[id].assetType == t && textureTransfers[id].dataPackets == map[]
    {
      if id in assets {
        return;
      }
      if t == TextureAssetType {
        RequestTexture(id);
      } else {
        RequestOtherAsset(id, t);
      }
    }

    method RequestTexture(id: UUID)
      modifies this
      ensures assets == old(assets) && assetTransfers == old(assetTransfers)
      ensures id in old(textureTransfers) ==> textureTransfers == old(textureTransfers) && requests == old(requests)
      ensures id !in old(textureTransfers) ==>
                textureTransfers.Keys == old(textureTransfers).Keys + {id} &&
                (forall k :: k in old(textureTransfers) ==> textureTransfers[k] == old(textureTransfers)[k]) &&
                fresh(textureTransfers[id]) && textureTransfers[id].Valid() &&
                textureTransfers[id].assetType == TextureAssetType && textureTransfers[id].dataPackets == map[] &&
                requests == old(requests) + [TextureRequest(id)]
    {
      if id in textureTransfers {
        return;
      }
      var transfer := new AssetTransfer();
      transfer.SetAssetType(TextureAssetType);
      textureTransfers := textureTransfers[id := transfer];
      requests := requests + [TextureRequest(id)];
    }

    method RequestOtherAsset(id: UUID, t: uint32)
      modifies this
      ensures assets == old(assets) && textureTransfers == old(textureTransfers)
      ensures id in old(assetTransfers) ==> assetTransfers == old(assetTransfers) && requests == old(requests)
      ensures id !in old(assetTransfers) ==>
                assetTransfers.Keys == old(assetTransfers).Keys + {id} &&
                (forall k :: k in old(assetTransfers) ==> assetTransfers[k] == old(assetTransfers)[k]) &&
                fresh(assetTransfers[id]) && assetTransfers[id].Valid() &&
                assetTransfers[id].assetType == t && assetTransfers[id].dataPackets == map[] &&
                requests == old(requests) + [OtherAssetRequest(id, t)]
    {
      if id in assetTransfers {
        return;
      }
      var transfer := new AssetTransfer();
      transfer.SetAssetType(t);
      assetTransfers := assetTransfers[id := transfer];
      requests := requests + [OtherAssetRequest(id, t)];
    }

    /** StoreAsset: the transfer's type and its assembled bytes become the completed asset under the same id. */
    method StoreAsset(id: UUID, transfer: AssetTransfer)
      requires transfer.IsReady()
      modifies this
      ensures assets == old(assets)[id := Asset(transfer.assetType, ContinuousData(transfer.dataPackets))]
      ensures |assets[id].data| == transfer.size
      ensures assetTransfers == old(assetTransfers) && textureTransfers == old(textureTransfers)
      ensures requests == old(requests)
    {
      var buffer := new byte[transfer.size];
      transfer.AssembleData(buffer);
      ContinuousDataLength(transfer.dataPackets);
      assets := assets[id := Asset(transfer.assetType, buffer[..])];
    }
  }
}
