/** The cursor that decodes a snapshot, and the loops that write one. */
module DiskReader {
  import opened Types
  import opened Codec
  import opened SessionCodec
  import Utf8

  /** A cursor step does what the decoder does to the bytes that were left. */
  ghost predicate Took<T>(got: Option<(T, Bytes)>, r: Option<T>, rest: Bytes) {
    match got
    case Some((x, d)) => r == Some(x) && rest == d
    case None => r == None
  }

  /** Reading `n` values starting at `d` has given `xs` and left `rest`. */
  ghost predicate Gave<T>(get: Decoder<T>, n: nat, d: Bytes, xs: seq<T>, rest: Bytes) {
    GetMany(get, n, d) == Some((xs, rest))
  }

  lemma {:induction false} GaveMore<T>(get: Decoder<T>, n: nat, d: Bytes, xs: seq<T>, rest: Bytes)
    requires Gave(get, n, d, xs, rest) && get(rest).Some?
    ensures Gave(get, n + 1, d, xs + [get(rest).value.0], get(rest).value.1)
  {
    var x := get(rest).value.0;
    if n == 0 {
      assert GetMany(get, 0, get(d).value.1) == Some(([], get(rest).value.1));
      assert [x] + [] == [] + [x];
    } else {
      GaveMore(get, n - 1, get(d).value.1, xs[1..], rest);
      assert xs + [x] == [xs[0]] + (xs[1..] + [x]);
    }
  }

  lemma {:induction false} GaveNoMore<T>(get: Decoder<T>, i: nat, d: Bytes, xs: seq<T>, rest: Bytes, n: nat)
    requires Gave(get, i, d, xs, rest) && get(rest).None? && i < n
    ensures GetMany(get, n, d) == None
  {
    if i > 0 { GaveNoMore(get, i - 1, get(d).value.1, xs[1..], rest, n - 1); }
  }

  lemma FromPairsMore<T>(xs: seq<(u16, T)>, x: (u16, T))
    ensures FromPairs(xs + [x]) == FromPairs(xs)[x.0 := x.1]
  {
    assert (xs + [x])[..|xs|] == xs;
  }

  class Reader {
    const data: Bytes
    var pos: nat

    ghost predicate Valid()
      reads this
    {
      pos <= |data|
    }

    ghost function Rest(): Bytes
      requires Valid()
      reads this
    {
      data[pos..]
    }

    constructor (data: Bytes)
      ensures Valid() && this.data == data && Rest() == data
    {
      this.data, pos := data, 0;
    }

    method TakeBytes(n: nat) returns (r: Option<Bytes>)
      requires Valid()
      modifies this`pos
      ensures Valid() && Took(Take(old(Rest()), n), r, Rest())
    {
      if pos + n > |data| { return None; }
      r := Some(data[pos..pos + n]);
      assert data[pos..pos + n] == data[pos..][..n];
      pos := pos + n;
    }

    method U8() returns (r: Option<byte>)
      requires Valid()
      modifies this`pos
      ensures Valid() && Took(GetU8(old(Rest())), r, Rest())
    {
      var b := TakeBytes(1);
      if b.None? { return None; }
      return Some(b.value[0]);
    }

    method U16() returns (r: Option<u16>)
      requires Valid()
      modifies this`pos
      ensures Valid() && Took(GetU16(old(Rest())), r, Rest())
    {
      var b := TakeBytes(2);
      if b.None? { return None; }
      return Some(Number16(b.value));
    }

    method U32() returns (r: Option<u32>)
      requires Valid()
      modifies this`pos
      ensures Valid() && Took(GetU32(old(Rest())), r, Rest())
    {
      var b := TakeBytes(4);
      if b.None? { return None; }
      return Some(Number32(b.value));
    }

    method Str() returns (r: Option<string>)
      requires Valid()
      modifies this`pos
      ensures Valid() && Took(GetStr(old(Rest())), r, Rest())
    {
      var n := U16();
      if n.None? { return None; }
      var b := TakeBytes(n.value);
      if b.None? { return None; }
      return Utf8.Decode(b.value);
    }

    method OptStr() returns (r: Option<Option<string>>)
      requires Valid()
      modifies this`pos
      ensures Valid() && Took(GetOptStr(old(Rest())), r, Rest())
    {
      var tag := U8();
      if tag.None? { return None; }
      if tag.value != 1 { return Some(None); }
      var s := Str();
      if s.None? { return None; }
      return Some(Some(s.value));
    }

    method OptU32() returns (r: Option<Option<u32>>)
      requires Valid()
      modifies this`pos
      ensures Valid() && Took(GetOptU32(old(Rest())), r, Rest())
    {
      var tag := U8();
      if tag.None? { return None; }
      if tag.value != 1 { return Some(None); }
      var v := U32();
      if v.None? { return None; }
      return Some(Some(v.value));
    }

    method Packet(codec: PacketCodec) returns (r: Option<Publish>)
      requires Valid()
      modifies this`pos
      ensures Valid() && Took(GetPublish(codec, old(Rest())), r, Rest())
    {
      var n := U32();
      if n.None? { return None; }
      var b := TakeBytes(n.value);
      if b.None? { return None; }
      return codec.read(b.value);
    }

    method Level() returns (r: Option<QoS>)
      requires Valid()
      modifies this`pos
      ensures Valid() && Took(GetQos(old(Rest())), r, Rest())
    {
      var b := U8();
      if b.None? || b.value > 2 { return None; }
      return Some(if b.value == 0 then AtMostOnce else if b.value == 1 then AtLeastOnce else ExactlyOnce);
    }

    method State() returns (r: Option<InflightState>)
      requires Valid()
      modifies this`pos
      ensures Valid() && Took(GetState(old(Rest())), r, Rest())
    {
      var b := U8();
      if b.None? || b.value > 2 { return None; }
      return Some(if b.value == 0 then Qos1 else if b.value == 1 then Qos2Pending else Qos2Released);
    }

    method Sub() returns (r: Option<MigratedSub>)
      requires Valid()
      modifies this`pos
      ensures Valid() && Took(GetSub(old(Rest())), r, Rest())
    {
      var filter := Str();
      if filter.None? { return None; }
      var qos := Level();
      if qos.None? { return None; }
      var flags := U8();
      if flags.None? { return None; }
      var group := OptStr();
      if group.None? { return None; }
      var id := OptU32();
      if id.None? { return None; }
      return Some(MigratedSub(filter.value, qos.value, Bits(flags.value).0, Bits(flags.value).1, group.value, id.value));
    }

    method Subs() returns (r: Option<seq<MigratedSub>>)
      requires Valid()
      modifies this`pos
      ensures Valid() && Took(GetList(GetSub, old(Rest())), r, Rest())
    {
      var n := U32();
      if n.None? { return None; }
      var xs := [];
      ghost var start := Rest();
      for i := 0 to n.value
        invariant Valid()
        invariant Gave(GetSub, i, start, xs, Rest())
      {
        ghost var here := Rest();
        var x := Sub();
        if x.None? {
          GaveNoMore(GetSub, i, start, xs, here, n.value);
          return None;
        }
        GaveMore(GetSub, i, start, xs, here);
        xs := xs + [x.value];
      }
      return Some(xs);
    }

    method OneInflight(codec: PacketCodec) returns (r: Option<(u16, InflightMessage)>)
      requires Valid()
      modifies this`pos
      ensures Valid() && Took(InflightGet(codec)(old(Rest())), r, Rest())
    {
      var pkid := U16();
      if pkid.None? { return None; }
      var state := State();
      if state.None? { return None; }
      var p := Packet(codec);
      if p.None? { return None; }
      return Some((pkid.value, InflightMessage(p.value, state.value)));
    }

    /** Fills the in-flight map, a later entry replacing an earlier one under the same packet id. */
    method Inflight(codec: PacketCodec) returns (r: Option<map<u16, InflightMessage>>, ghost xs: seq<(u16, InflightMessage)>)
      requires Valid()
      modifies this`pos
      ensures Valid() && Took(GetList(InflightGet(codec), old(Rest())), if r.None? then None else Some(xs), Rest())
      ensures r.Some? ==> r.value == FromPairs(xs)
    {
      xs := [];
      var n := U32();
      if n.None? { return None, xs; }
      var m := map[];
      ghost var start := Rest();
      for i := 0 to n.value
        invariant Valid() && m == FromPairs(xs)
        invariant Gave(InflightGet(codec), i, start, xs, Rest())
      {
        ghost var here := Rest();
        var x := OneInflight(codec);
        if x.None? {
          GaveNoMore(InflightGet(codec), i, start, xs, here, n.value);
          return None, xs;
        }
        GaveMore(InflightGet(codec), i, start, xs, here);
        FromPairsMore(xs, x.value);
        m, xs := m[x.value.0 := x.value.1], xs + [x.value];
      }
      r := Some(m);
    }

    method OneIncoming(codec: PacketCodec) returns (r: Option<(u16, Publish)>)
      requires Valid()
      modifies this`pos
      ensures Valid() && Took(IncomingGet(codec)(old(Rest())), r, Rest())
    {
      var pkid := U16();
      if pkid.None? { return None; }
      var p := Packet(codec);
      if p.None? { return None; }
      return Some((pkid.value, p.value));
    }

    method Incoming(codec: PacketCodec) returns (r: Option<map<u16, Publish>>, ghost xs: seq<(u16, Publish)>)
      requires Valid()
      modifies this`pos
      ensures Valid() && Took(GetList(IncomingGet(codec), old(Rest())), if r.None? then None else Some(xs), Rest())
      ensures r.Some? ==> r.value == FromPairs(xs)
    {
      xs := [];
      var n := U32();
      if n.None? { return None, xs; }
      var m := map[];
      ghost var start := Rest();
      for i := 0 to n.value
        invariant Valid() && m == FromPairs(xs)
        invariant Gave(IncomingGet(codec), i, start, xs, Rest())
      {
        ghost var here := Rest();
        var x := OneIncoming(codec);
        if x.None? {
          GaveNoMore(IncomingGet(codec), i, start, xs, here, n.value);
          return None, xs;
        }
        GaveMore(IncomingGet(codec), i, start, xs, here);
        FromPairsMore(xs, x.value);
        m, xs := m[x.value.0 := x.value.1], xs + [x.value];
      }
      r := Some(m);
    }

    method Ids() returns (r: Option<seq<nat>>)
      requires Valid()
      modifies this`pos
      ensures Valid() && Took(GetList(GetId, old(Rest())), r, Rest())
    {
      var n := U32();
      if n.None? { return None; }
      var xs: seq<nat> := [];
      ghost var start := Rest();
      for i := 0 to n.value
        invariant Valid()
        invariant Gave(GetId, i, start, xs, Rest())
      {
        ghost var here := Rest();
        var x := U32();
        if x.None? {
          GaveNoMore(GetId, i, start, xs, here, n.value);
          return None;
        }
        GaveMore(GetId, i, start, xs, here);
        xs := xs + [x.value];
      }
      return Some(xs);
    }

    method OneOffline(codec: PacketCodec) returns (r: Option<Delivery>)
      requires Valid()
      modifies this`pos
      ensures Valid() && Took(OfflineGet(codec)(old(Rest())), r, Rest())
    {
      var qos := Level();
      if qos.None? { return None; }
      var retain := U8();
      if retain.None? { return None; }
      var ids := Ids();
      if ids.None? { return None; }
      var p := Packet(codec);
      if p.None? { return None; }
      return Some(Delivery(p.value, qos.value, retain.value != 0, ids.value));
    }

    method Offline(codec: PacketCodec) returns (r: Option<seq<Delivery>>)
      requires Valid()
      modifies this`pos
      ensures Valid() && Took(GetList(OfflineGet(codec), old(Rest())), r, Rest())
    {
      var n := U32();
      if n.None? { return None; }
      var xs := [];
      ghost var start := Rest();
      for i := 0 to n.value
        invariant Valid()
        invariant Gave(OfflineGet(codec), i, start, xs, Rest())
      {
        ghost var here := Rest();
        var x := OneOffline(codec);
        if x.None? {
          GaveNoMore(OfflineGet(codec), i, start, xs, here, n.value);
          return None;
        }
        GaveMore(OfflineGet(codec), i, start, xs, here);
        xs := xs + [x.value];
      }
      return Some(xs);
    }

    method DecodeSession(codec: PacketCodec) returns (r: Option<PersistedSession>)
      requires Valid()
      modifies this`pos
      ensures Valid() && Took(SessionGet(codec)(old(Rest())), r, Rest())
    {
      var clientId := Str();
      if clientId.None? { return None; }
      var expiry := U32();
      if expiry.None? { return None; }
      var subs := Subs();
      if subs.None? { return None; }
      assert GetHead(old(Rest())) == Some((clientId.value, expiry.value, subs.value, Rest()));
      var nextPkid := U16();
      if nextPkid.None? { return None; }
      ghost var tail := Rest();
      var inflight, xs := Inflight(codec);
      if inflight.None? { return None; }
      var incoming, ys := Incoming(codec);
      if incoming.None? { return None; }
      var offline := Offline(codec);
      if offline.None? { return None; }
      assert GetTail(codec, tail) == Some((inflight.value, incoming.value, offline.value, Rest()));
      return Some(PersistedSession(clientId.value, expiry.value, subs.value, inflight.value, incoming.value, nextPkid.value, offline.value));
    }
  }

  method ParseSnapshot(codec: PacketCodec, data: Bytes) returns (r: Option<seq<PersistedSession>>)
    ensures r == match Parse(codec, data) case Some((xs, _)) => Some(xs) case None => None
  {
    var reader := new Reader(data);
    var magic := reader.TakeBytes(4);
    if magic.None? || magic.value != MAGIC { return None; }
    ghost var d := reader.Rest();
    assert Parse(codec, data) == GetList(SessionGet(codec), d);
    var n := reader.U32();
    if n.None? { return None; }
    var xs := [];
    ghost var start := reader.Rest();
    for i := 0 to n.value
      invariant reader.Valid()
      invariant Gave(SessionGet(codec), i, start, xs, reader.Rest())
    {
      ghost var here := reader.Rest();
      var x := reader.DecodeSession(codec);
      if x.None? {
        GaveNoMore(SessionGet(codec), i, start, xs, here, n.value);
        return None;
      }
      GaveMore(SessionGet(codec), i, start, xs, here);
      xs := xs + [x.value];
    }
    return Some(xs);
  }

  // --- writing ---------------------------------------------------------------------------

  lemma {:induction false} PutManyMore<T>(put: T -> Option<Bytes>, xs: seq<T>, x: T)
    ensures PutMany(put, xs + [x])
         == if PutMany(put, xs).Some? && put(x).Some? then Some(PutMany(put, xs).value + put(x).value) else None
  {
    if xs == [] {
      assert [x][1..] == [] && [] + [x] == [x];
      if put(x).Some? { assert put(x).value + [] == put(x).value == [] + put(x).value; }
    } else {
      assert (xs + [x])[1..] == xs[1..] + [x];
      PutManyMore(put, xs[1..], x);
      if put(xs[0]).Some? && PutMany(put, xs[1..]).Some? && put(x).Some? {
        Assoc(put(xs[0]).value, PutMany(put, xs[1..]).value, put(x).value);
      }
    }
  }

  lemma {:induction false} PutManyStops<T>(put: T -> Option<Bytes>, xs: seq<T>, i: nat)
    requires i < |xs| && put(xs[i]).None?
    ensures PutMany(put, xs).None?
  {
    if i > 0 { PutManyStops(put, xs[1..], i - 1); }
  }

  /** Writes a counted list; the first value that cannot be written fails the whole. */
  method WriteList<T>(put: T -> Option<Bytes>, xs: seq<T>) returns (r: Option<Bytes>)
    ensures r == PutList(put, xs)
  {
    var buf := [];
    for i := 0 to |xs|
      invariant PutMany(put, xs[..i]) == Some(buf)
    {
      var b := put(xs[i]);
      PutManyMore(put, xs[..i], xs[i]);
      assert xs[..i] + [xs[i]] == xs[..i + 1];
      if b.None? {
        PutManyStops(put, xs, i);
        return None;
      }
      buf := buf + b.value;
    }
    assert xs[..|xs|] == xs;
    return Some(PutU32(Low32(|xs|)) + buf);
  }

  /** Walks a map, visiting every entry once in an order of its own. */
  method Walk<T>(m: map<u16, T>) returns (xs: seq<(u16, T)>)
    ensures Lists(xs, m)
  {
    xs := [];
    var left := m;
    while left != map[]
      invariant |xs| + |left| == |m|
      invariant forall k | k in left :: k in m && m[k] == left[k]
      invariant forall i | 0 <= i < |xs| :: xs[i].0 in m && m[xs[i].0] == xs[i].1 && xs[i].0 !in left
      invariant forall i, j | 0 <= i < j < |xs| :: xs[i].0 != xs[j].0
      decreases |left|
    {
      var k :| k in left;
      assert (left - {k}).Keys == left.Keys - {k};
      xs, left := xs + [(k, left[k])], left - {k};
    }
  }

  method EncodeSession(codec: PacketCodec, ps: PersistedSession) returns (r: Option<Bytes>, ghost w: Walked)
    ensures WalkOf(w, ps)
    ensures r == WalkedPut(codec)(w)
  {
    var infl := Walk(ps.inflight);
    var inco := Walk(ps.incomingQos2);
    w := Walked(ps, infl, inco);
    var subs := WriteList(PutSub, ps.subscriptions);
    if subs.None? { return None, w; }
    var a := WriteList(InflightPut(codec), infl);
    if a.None? { return None, w; }
    var b := WriteList(IncomingPut(codec), inco);
    if b.None? { return None, w; }
    var c := WriteList(OfflinePut(codec), ps.offline);
    if c.None? { return None, w; }
    r := Some(PutStr(ps.clientId) + (PutU32(ps.expirySecs) + (subs.value + (PutU16(ps.nextPkid) + (a.value + (b.value + c.value))))));
  }

  method SerializeSnapshot(codec: PacketCodec, sessions: seq<PersistedSession>) returns (r: Option<Bytes>, ghost walks: seq<Walked>)
    ensures |walks| == |sessions| && r == Serialize(codec, walks)
    ensures forall i | 0 <= i < |walks| :: WalkOf(walks[i], sessions[i])
  {
    var ws := [];
    for i := 0 to |sessions|
      invariant |ws| == i && forall j | 0 <= j < i :: WalkOf(ws[j], sessions[j])
    {
      var infl := Walk(sessions[i].inflight);
      var inco := Walk(sessions[i].incomingQos2);
      ws := ws + [Walked(sessions[i], infl, inco)];
    }
    walks := ws;
    var b := WriteList(WalkedPut(codec), ws);
    r := if b.None? then None else Some(MAGIC + b.value);
  }
}
