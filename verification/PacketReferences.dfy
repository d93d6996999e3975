/** The protocol's packets are lists of object references; those of the serializer are trees of values. The references
    in a tree, in the order the serializer comes to them, are what joins the two. */
module PacketReferences {
  import opened Bytes
  import opened StringMap
  import opened CompactFormat
  import opened CompactProofs
  import RemoteHandle

  type Reference = RemoteHandle.Ref

  /** The object references written for a value, which are those a decoder hands to the object deserializer; the value
      of an empty key is not written. */
  function References(v: Value): seq<Reference>
    decreases v, 0
  {
    match v
    case Ref(remote, id) => [RemoteHandle.Ref(remote, id)]
    case Arr(items) => ItemReferences(items)
    case Assoc(es) => PairReferences(es)
    case _ => []
  }

  function ItemReferences(vs: seq<Value>): seq<Reference>
    decreases vs
  {
    if vs == [] then [] else References(vs[0]) + ItemReferences(vs[1..])
  }

  function PairReferences(es: Table<Value>): seq<Reference>
    decreases es
  {
    if es == [] then []
    else (if es[0].key == [] then [] else References(es[0].value)) + PairReferences(es[1..])
  }

  /** The normal form a value comes back in has the same references in the same order. */
  lemma {:induction false} NormReferences(v: Value)
    ensures References(Norm(v)) == References(v)
    decreases v, 1
  {
    match v {
      case Arr(items) => NormItemReferences(items);
      case Assoc(es) => NormPairReferences(es);
      case _ =>
    }
  }

  lemma {:induction false} NormItemReferences(vs: seq<Value>)
    ensures ItemReferences(NormItems(vs)) == ItemReferences(vs)
    decreases vs
  {
    if vs != [] {
      NormReferences(vs[0]);
      NormItemReferences(vs[1..]);
      assert NormItems(vs)[1..] == NormItems(vs[1..]);
    }
  }

  lemma {:induction false} NormPairReferences(es: Table<Value>)
    ensures PairReferences(NormPairs(es)) == PairReferences(es)
    decreases es
  {
    if es != [] {
      NormPairReferences(es[1..]);
      if es[0].key == [] {
        assert NormPairs(es) == NormPairs(es[1..]);
        assert PairReferences(es) == PairReferences(es[1..]);
      } else {
        var e := Entry(es[0].key, Norm(es[0].value));
        NormReferences(es[0].value);
        assert NormPairs(es) == [e] + NormPairs(es[1..]);
        assert NormPairs(es)[0] == e && NormPairs(es)[1..] == NormPairs(es[1..]);
      }
    }
  }

  /** Decoding a packet, whatever follows it, comes to exactly the references that were written, in their order. */
  lemma PacketKeepsReferences(vs: seq<Value>, t: seq<byte>)
    requires |EncItems(vs)| < LIMIT && forall i :: 0 <= i < |vs| ==> WellFormed(vs[i])
    ensures var p := Packet(vs); var r := DecValue(p + t, 0, |p + t|);
      r.Ok? && r.pos == |p| && References(r.v) == ItemReferences(vs)
  {
    PacketRoundTrip(vs, t);
    NormItemReferences(vs);
  }

  /** So what one end writes for its objects the other end resolves as the protocol's packets say: the references of the
      bytes read are those `SerializeAll` made. */
  lemma PacketIsItsReferences(vs: seq<Value>, t: seq<byte>, sender: RemoteHandle.Handle, vals: seq<RemoteHandle.Val>,
                              receiver: RemoteHandle.Handle)
    requires |EncItems(vs)| < LIMIT && forall i :: 0 <= i < |vs| ==> WellFormed(vs[i])
    requires ItemReferences(vs) == RemoteHandle.SerializeAll(sender, vals).1
    ensures var p := Packet(vs); var r := DecValue(p + t, 0, |p + t|);
      && r.Ok?
      && References(r.v) == RemoteHandle.SerializeAll(sender, vals).1
      && (RemoteHandle.DeserializeAll(receiver, References(r.v)).1
          <==> RemoteHandle.Resolves(receiver, RemoteHandle.SerializeAll(sender, vals).1))
  {
    PacketKeepsReferences(vs, t);
    RemoteHandle.DeserializeAllReceives(receiver, RemoteHandle.SerializeAll(sender, vals).1);
  }

  /** The packet of op_destroy is one reference, to an object of the receiver's. */
  lemma DestroyIsItsReference(op: int32, id: int64, t: seq<byte>)
    ensures var p := ObjectOp(op, true, id); var r := DecValue(p + t, 0, |p + t|);
      r.Ok? && r.pos == |p| && r.v == Arr([Int(op), Ref(true, id)]) && References(r.v) == [RemoteHandle.Ref(true, id)]
  {
    var vs := [Int(op), Ref(true, id)];
    ObjectOpIsPacket(op, true, id);
    assert vs[1..] == [Ref(true, id)] && vs[1..][1..] == [];
    ObjectOpSmall(op, id);
    PacketRoundTrip(vs, t);
    assert NormItems(vs[1..]) == [Ref(true, id)] + NormItems([]);
    assert NormItems(vs) == [Int(op)] + NormItems(vs[1..]) == vs;
    assert ItemReferences(vs[1..]) == [RemoteHandle.Ref(true, id)] + [];
    assert ItemReferences(vs) == [] + ItemReferences(vs[1..]);
  }

  lemma ObjectOpSmall(op: int32, id: int64)
    ensures |EncItems([Int(op), Ref(true, id)])| < LIMIT
  {
    var vs := [Int(op), Ref(true, id)];
    assert vs[1..] == [Ref(true, id)] && vs[1..][1..] == [];
    SBytesShort(op);
    SBytesShort(id);
    assert |Enc(Int(op))| <= 9 && |Enc(Ref(true, id))| <= 10;
    assert EncItems(vs[1..]) == Enc(Ref(true, id)) + EncItems([]);
    assert EncItems(vs) == Enc(vs[0]) + EncItems(vs[1..]);
  }
}
