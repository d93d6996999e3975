/** The decoders of the compact format. The cursor `rp` of the C++ code is passed in and comes back in the
    result; every access stays between it and the end of the buffer, for any bytes whatever. */
module CompactDeserializer {
  import opened Bytes
  import opened StringMap
  import opened CompactFormat

  /** `ase_deserialize_compact_integral`: copy into a variable of `width` bytes, fill up with the sign. */
  method DeserializeIntegral(data: seq<byte>, width: nat) returns (v: int)
    requires 1 <= |data| <= width
    ensures v == SValue(data)
  {
    var memory := data;
    if |data| != width && data[|data| - 1] >= 0x80 {
      memory := data + seq(width - |data|, _ => 0xff);
    } else {
      memory := data + seq(width - |data|, _ => 0);
    }
    SignExtend(data, width - |data|);
    if |data| != width {
      assert memory == data + seq(width - |data|, i => SignFill(data));
    } else {
      assert memory == data;
    }
    v := SValue(memory);
  }

  method DeserializeInt(data: seq<byte>) returns (r: Decoded<Value>)
    ensures r == DecInt(data)
  {
    if |data| > 8 {
      return Throw(IntTooLarge);
    }
    if |data| == 0 {
      return Ok(Int(0), 0);
    }
    SizedFits(data);
    if |data| <= 4 {
      var i := DeserializeIntegral(data, 4);
      return Ok(Int(i), 0);
    }
    var l := DeserializeIntegral(data, 8);
    return Ok(Long(l), 0);
  }

  method DeserializeObject(data: seq<byte>) returns (r: Decoded<Value>)
    ensures r == DecRef(data)
  {
    if |data| < 1 {
      return Throw(ObjectRefMalformed);
    }
    var remote := data[0] != 0;
    if |data| == 1 {
      return Ok(Ref(remote, 0), 0);
    }
    if |data| - 1 > 8 {
      return Throw(ObjectRefUnsupportedSize);
    }
    SizedFits(data[1..]);
    var id := DeserializeIntegral(data[1..], 8);
    return Ok(Ref(remote, id), 0);
  }

  method DeserializeArray(b: seq<byte>, expectEndTag: bool, rp: nat, end: nat) returns (r: Decoded<seq<Value>>)
    requires rp <= end <= |b|
    ensures r == DecItems(b, expectEndTag, rp, end, [])
    decreases end - rp, 1
  {
    var cur, items := rp, [];
    while true
      invariant rp <= cur <= end
      invariant DecItems(b, expectEndTag, cur, end, items) == DecItems(b, expectEndTag, rp, end, [])
      decreases end - cur
    {
      if !expectEndTag && end == cur {
        return Ok(items, cur);
      }
      if end - cur < 1 {
        return Throw(TooShort);
      }
      if b[cur] == 0xf5 {
        return if expectEndTag then Ok(items, cur + 1) else Throw(UnexpectedArrayEndTag);
      }
      var e := DeserializeValue(b, cur, end);
      if e.Throw? {
        return Throw(e.e);
      }
      items := items + [e.v];
      cur := e.pos;
    }
  }

  method DeserializeAssoc(b: seq<byte>, expectEndTag: bool, rp: nat, end: nat) returns (r: Decoded<Table<Value>>)
    requires rp <= end <= |b|
    ensures r == DecPairs(b, expectEndTag, rp, end, [])
    decreases end - rp, 1
  {
    var cur := rp;
    var pairs := new StrMap<Value>();
    while true
      invariant rp <= cur <= end && fresh(pairs) && Sorted(pairs.table)
      invariant DecPairs(b, expectEndTag, cur, end, pairs.table) == DecPairs(b, expectEndTag, rp, end, [])
      decreases end - cur
    {
      if !expectEndTag && end == cur {
        return Ok(pairs.table, cur);
      }
      if end - cur < 1 {
        return Throw(TooShort);
      }
      if b[cur] == 0xf7 {
        return if expectEndTag then Ok(pairs.table, cur + 1) else Throw(UnexpectedAssocEndTag);
      }
      var k := DeserializeValue(b, cur, end);
      if k.Throw? {
        return Throw(k.e);
      }
      if !k.v.Str? {
        return Throw(WrongAssocKey);
      }
      var e := DeserializeValue(b, k.pos, end);
      if e.Throw? {
        return Throw(e.e);
      }
      pairs.SetProperty(k.v.s, e.v);
      cur := e.pos;
    }
  }

  /** Each call throws or moves the cursor strictly forward without passing the end. */
  method DeserializeValue(b: seq<byte>, rp: nat, end: nat) returns (r: Decoded<Value>)
    requires rp <= end <= |b|
    ensures r == DecValue(b, rp, end)
    ensures r.Ok? ==> rp < r.pos <= end
    decreases end - rp, 0
  {
    if end - rp < 1 {
      return Throw(TooShort);
    }
    var tag := b[rp];
    var cur := rp + 1;
    if tag >= 0xf0 {
      match tag {
        case 0xf0 => return Ok(Void, cur);
        case 0xf2 => return Ok(Bool(false), cur);
        case 0xf3 => return Ok(Bool(true), cur);
        case 0xf4 =>
          var a := DeserializeArray(b, true, cur, end);
          return if a.Throw? then Throw(a.e) else Ok(Arr(a.v), a.pos);
        case 0xf6 =>
          var m := DeserializeAssoc(b, true, cur, end);
          return if m.Throw? then Throw(m.e) else Ok(Assoc(m.v), m.pos);
        case _ => return Throw(InvalidTag);
      }
    }
    var dataLen: nat, typetag: byte;
    if tag < 0xc0 {
      dataLen, typetag := tag % 32, tag / 32 * 32;
    } else {
      var lengthLen := tag % 8;
      if end - cur < lengthLen {
        return Throw(TooShort);
      }
      dataLen := UValue(b[cur..cur + lengthLen]);
      cur := cur + lengthLen;
      typetag := (tag - 0xc0) / 8 * 32;
    }
    if end - cur < dataLen {
      return Throw(TooShort);
    }
    var start, finish := cur, cur + dataLen;
    assert DecHeader(b, rp, end) == Payload(typetag, start, finish);
    r := DeserializePayload(b, typetag, start, finish);
    if r.Ok? {
      r := Ok(r.v, finish);
    }
  }

  method DeserializePayload(b: seq<byte>, typetag: byte, start: nat, finish: nat) returns (r: Decoded<Value>)
    requires start <= finish <= |b|
    ensures r == DecPayload(b, typetag, start, finish)
    decreases finish - start, 2
  {
    match typetag {
      case 0x00 => r := DeserializeInt(b[start..finish]);
      case 0x20 =>
        if finish - start != 8 {
          return Throw(RealUnsupportedSize);
        }
        return Ok(Double(b[start..finish]), 0);
      case 0x40 => r := DeserializeObject(b[start..finish]);
      case 0x60 => return Ok(Str(b[start..finish]), 0);
      case 0x80 =>
        var a := DeserializeArray(b, false, start, finish);
        return if a.Throw? then Throw(a.e) else Ok(Arr(a.v), a.pos);
      case 0xa0 =>
        var m := DeserializeAssoc(b, false, start, finish);
        return if m.Throw? then Throw(m.e) else Ok(Assoc(m.v), m.pos);
      case _ => return Throw(Malformed);
    }
  }
}
