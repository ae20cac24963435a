/** The session write-ahead log: framed records, and the replay that stops at a torn tail. */
module Wal {
  import opened Types
  import opened Codec
  import opened SessionCodec
  import Utf8

  datatype Record = Upsert(ps: PersistedSession) | Remove(id: ClientId)

  type Sessions = map<ClientId, PersistedSession>

  function GetRecord(codec: PacketCodec, d: Bytes): Option<(Record, Bytes)> {
    var (kind, d1) :- GetU8(d);
    if kind == 1 then
      var (ps, d2) :- GetSession(codec, d1);
      Some((Upsert(ps), d2))
    else if kind == 2 then
      var (id, d2) :- GetStr(d1);
      Some((Remove(id), d2))
    else None
  }

  function RecordGet(codec: PacketCodec): Decoder<Record> {
    d => GetRecord(codec, d)
  }

  lemma RecordShrinks(codec: PacketCodec)
    ensures Shrinks(RecordGet(codec))
  {
    SessionShrinks(codec);
    forall d | RecordGet(codec)(d).Some? ensures |RecordGet(codec)(d).value.1| <= |d| {
      assert d[0] == 1 ==> SessionGet(codec)(d[1..]).Some?;
    }
  }

  function Write(m: Sessions, r: Record): Sessions {
    match r
    case Upsert(ps) => m[ps.clientId := ps]
    case Remove(id) => m - {id}
  }

  /** The replay: the map it leaves and how many records it applied. */
  ghost function Replay(get: Decoder<Record>, d: Bytes, m: Sessions): (Sessions, nat)
    requires Shrinks(get)
    decreases |d|
  {
    if |d| < 4 then (m, 0)
    else
      var (len, d1) := GetU32(d).value;
      if len == 0 || |d1| < len || get(d1).None? then (m, 0)
      else
        var (r, d2) := get(d1).value;
        var (m2, n) := Replay(get, d2, Write(m, r));
        (m2, n + 1)
  }

  /** Applies the records in turn, stopping at the first that is torn, cut short or corrupt. */
  method ApplyLog(get: Decoder<Record>, data: Bytes, sessions: Sessions) returns (out: Sessions, applied: nat)
    requires Shrinks(get)
    ensures (out, applied) == Replay(get, data, sessions)
  {
    out, applied := sessions, 0;
    var rest := data;
    while |rest| >= 4
      invariant var (m, n) := Replay(get, rest, out); (m, n + applied) == Replay(get, data, sessions)
      decreases |rest|
    {
      var (len, d) := GetU32(rest).value;
      if len == 0 || |d| < len { break; }
      var got := get(d);
      if got.None? { break; }
      match got.value.0 {
        case Upsert(ps) => out := out[ps.clientId := ps];
        case Remove(id) => out := out - {id};
      }
      rest, applied := got.value.1, applied + 1;
    }
  }

  // --- what is written --------------------------------------------------------------------

  /** A record's bytes, with what reading them gives. */
  datatype Logged = Logged(body: Bytes, record: Record)

  ghost predicate Good(get: Decoder<Record>, e: Logged) {
    0 < |e.body| < 0x1_0000_0000 && Reads(get, e.body, e.record)
  }

  ghost predicate AllGood(get: Decoder<Record>, es: seq<Logged>) {
    forall i | 0 <= i < |es| :: Good(get, es[i])
  }

  function PutUpsert(codec: PacketCodec, w: Walked): Option<Logged> {
    var b :- PutSession(codec, w.ps, w.inflight, w.incoming);
    Some(Logged([1] + b, Upsert(Held(w.ps))))
  }

  function PutRemove(id: ClientId): Logged {
    Logged([2] + PutStr(id), Remove(id))
  }

  lemma UpsertReads(codec: PacketCodec, b: Bytes, rest: Bytes, ps: PersistedSession)
    requires GetSession(codec, b + rest) == Some((ps, rest))
    ensures GetRecord(codec, [1] + b + rest) == Some((Upsert(ps), rest))
  {
    Assoc([1], b, rest);
    assert ([1] + (b + rest))[1..] == b + rest;
  }

  /** An Upsert of any session that fits the format reads back as that session. */
  lemma UpsertGood(codec: PacketCodec, w: Walked)
    requires Sound(codec) && Walks(w)
    requires PutUpsert(codec, w).Some? && |PutUpsert(codec, w).value.body| < 0x1_0000_0000
    ensures Good(RecordGet(codec), PutUpsert(codec, w).value)
  {
    var b := PutSession(codec, w.ps, w.inflight, w.incoming).value;
    SessionReads(codec, w.ps, w.inflight, w.incoming);
    forall rest ensures RecordGet(codec)([1] + b + rest) == Some((Upsert(Held(w.ps)), rest)) {
      assert SessionGet(codec)(b + rest) == Some((Held(w.ps), rest));
      UpsertReads(codec, b, rest, Held(w.ps));
    }
  }

  /** A Remove of any id that fits the format reads back as that id. */
  lemma RemoveGood(codec: PacketCodec, id: ClientId)
    requires Fits(id)
    ensures Good(RecordGet(codec), PutRemove(id))
  {
    RemoveSize(id);
    forall rest ensures RecordGet(codec)([2] + PutStr(id) + rest) == Some((Remove(id), rest)) {
      Assoc([2], PutStr(id), rest);
      assert ([2] + (PutStr(id) + rest))[1..] == PutStr(id) + rest;
      FitsReads(id, rest);
    }
  }

  lemma RemoveSize(id: ClientId)
    requires Fits(id)
    ensures |PutRemove(id).body| == 3 + |Utf8.Encode(id)|
  {
  }

  function Log(es: seq<Logged>): Bytes {
    if es == [] then [] else Put32(es[0].body) + Log(es[1..])
  }

  /** Appends the framed records of a batch to a buffer. */
  method EncodeBatch(es: seq<Logged>) returns (out: Bytes)
    ensures out == Log(es)
  {
    out := [];
    for i := 0 to |es|
      invariant out + Log(es[i..]) == Log(es)
    {
      Assoc(out, Put32(es[i].body), Log(es[i + 1..]));
      assert es[i..][1..] == es[i + 1..];
      out := out + Put32(es[i].body);
    }
    assert es[|es|..] == [] && out + [] == out;
  }

  function Records(es: seq<Logged>): (rs: seq<Record>)
    ensures |rs| == |es| && forall i | 0 <= i < |es| :: rs[i] == es[i].record
  {
    seq(|es|, i requires 0 <= i < |es| => es[i].record)
  }

  /** Last writer wins: the records applied in order. */
  function Fold(m: Sessions, rs: seq<Record>): Sessions
    decreases |rs|
  {
    if rs == [] then m else Fold(Write(m, rs[0]), rs[1..])
  }

  function IdOf(r: Record): ClientId {
    match r
    case Upsert(ps) => ps.clientId
    case Remove(id) => id
  }

  /** What a record leaves under its id. */
  function Left(r: Record): Option<PersistedSession> {
    match r
    case Upsert(ps) => Some(ps)
    case Remove(_) => None
  }

  function Lookup(m: Sessions, id: ClientId): Option<PersistedSession> {
    if id in m then Some(m[id]) else None
  }

  /** The last record for an id. */
  function Last(rs: seq<Record>, id: ClientId): Option<Record> {
    if rs == [] then None
    else if IdOf(rs[|rs| - 1]) == id then Some(rs[|rs| - 1])
    else Last(rs[..|rs| - 1], id)
  }

  /** The fold, read off one id at a time: the last record for the id decides, else the start. */
  lemma {:induction false} FoldAt(m: Sessions, rs: seq<Record>, id: ClientId)
    ensures Lookup(Fold(m, rs), id) == match Last(rs, id) case Some(r) => Left(r) case None => Lookup(m, id)
    decreases |rs|
  {
    if rs != [] {
      var front, r := rs[..|rs| - 1], rs[|rs| - 1];
      assert rs == front + [r];
      FoldAppend(m, front, [r]);
      FoldAt(m, front, id);
      assert Fold(m, rs) == Write(Fold(m, front), r);
    }
  }

  lemma {:induction false} FoldAppend(m: Sessions, a: seq<Record>, b: seq<Record>)
    ensures Fold(m, a + b) == Fold(Fold(m, a), b)
    decreases |a|
  {
    if a == [] {
      assert a + b == b;
    } else {
      assert (a + b)[1..] == a[1..] + b;
      FoldAppend(Write(m, a[0]), a[1..], b);
    }
  }

  lemma SameLookups(a: Sessions, b: Sessions)
    requires forall id :: Lookup(a, id) == Lookup(b, id)
    ensures a == b
  {
    forall id ensures id in a <==> id in b { assert Lookup(a, id) == Lookup(b, id); }
    forall id | id in a ensures a[id] == b[id] { assert Lookup(a, id) == Lookup(b, id); }
  }

  /** Applying a whole log a second time, over whatever it left, changes nothing. */
  lemma FoldTwice(m: Sessions, rs: seq<Record>)
    ensures Fold(Fold(m, rs), rs) == Fold(m, rs)
  {
    forall id ensures Lookup(Fold(Fold(m, rs), rs), id) == Lookup(Fold(m, rs), id) {
      FoldAt(m, rs, id);
      FoldAt(Fold(m, rs), rs, id);
    }
    SameLookups(Fold(Fold(m, rs), rs), Fold(m, rs));
  }

  // --- replaying what was written ------------------------------------------------------------

  lemma FrameReads(b: Bytes, rest: Bytes)
    requires |b| < 0x1_0000_0000
    ensures |Put32(b)| == 4 + |b|
    ensures GetU32(Put32(b) + rest) == Some((|b|, b + rest))
  {
    Assoc(PutU32(|b|), b, rest);
    U32Reads(|b|, b + rest);
  }

  lemma ReplayOne(get: Decoder<Record>, e: Logged, d: Bytes, m: Sessions)
    requires Shrinks(get) && Good(get, e)
    ensures var (m2, n) := Replay(get, d, Write(m, e.record)); Replay(get, Put32(e.body) + d, m) == (m2, n + 1)
  {
    FrameReads(e.body, d);
    assert get(e.body + d) == Some((e.record, d));
  }

  /** From a record boundary on, the replay goes on as if the records before had been applied by hand. */
  lemma {:induction false} ReplayResumes(get: Decoder<Record>, es: seq<Logged>, d: Bytes, m: Sessions)
    requires Shrinks(get) && AllGood(get, es)
    ensures var (m2, n) := Replay(get, d, Fold(m, Records(es))); Replay(get, Log(es) + d, m) == (m2, n + |es|)
    decreases |es|
  {
    if es == [] {
      assert Log(es) + d == d;
    } else {
      var e, tail := es[0], es[1..];
      Assoc(Put32(e.body), Log(tail), d);
      ReplayOne(get, e, Log(tail) + d, m);
      ReplayResumes(get, tail, d, Write(m, e.record));
      assert Records(es)[1..] == Records(tail);
    }
  }

  lemma CutStops(get: Decoder<Record>, f: Bytes, len: nat, k: nat, m: Sessions)
    requires Shrinks(get) && |f| == 4 + len && GetU32(f).value.0 == len && k < |f|
    ensures Replay(get, f[..k], m) == (m, 0)
  {
    if k >= 4 { assert f[..k][..4] == f[..4]; }
  }

  /** A strict prefix of one record applies nothing. */
  lemma TornStops(get: Decoder<Record>, e: Logged, k: nat, m: Sessions)
    requires Shrinks(get) && Good(get, e) && k < |Put32(e.body)|
    ensures Replay(get, Put32(e.body)[..k], m) == (m, 0)
  {
    FrameReads(e.body, []);
    assert Put32(e.body) + [] == Put32(e.body);
    CutStops(get, Put32(e.body), |e.body|, k, m);
  }

  /** How many whole records the first `k` bytes of a log hold. */
  function Whole(es: seq<Logged>, k: nat): (n: nat)
    ensures n <= |es|
  {
    if es == [] || k < |Put32(es[0].body)| then 0 else 1 + Whole(es[1..], k - |Put32(es[0].body)|)
  }

  lemma {:induction false} LogSplits(es: seq<Logged>, n: nat)
    requires n <= |es|
    ensures Log(es) == Log(es[..n]) + Log(es[n..])
  {
    if n > 0 {
      LogSplits(es[1..], n - 1);
      assert es[..n][1..] == es[1..][..n - 1] && es[1..][n - 1..] == es[n..];
      Assoc(Put32(es[0].body), Log(es[1..][..n - 1]), Log(es[n..]));
    } else {
      assert es[..0] == [] && es[0..] == es && [] + Log(es) == Log(es);
    }
  }

  /** `Whole` is the longest prefix of whole records: they fit, and the next one does not. */
  lemma {:induction false} WholeIsLongest(es: seq<Logged>, k: nat)
    requires k <= |Log(es)|
    ensures |Log(es[..Whole(es, k)])| <= k
    ensures Whole(es, k) < |es| ==> k < |Log(es[..Whole(es, k)])| + |Put32(es[Whole(es, k)].body)|
    ensures Whole(es, k) == |es| ==> k == |Log(es)|
  {
    if es != [] && k >= |Put32(es[0].body)| {
      var n := Whole(es, k);
      WholeIsLongest(es[1..], k - |Put32(es[0].body)|);
      assert es[..n][1..] == es[1..][..n - 1];
    }
  }

  lemma LogPrefix(a: Bytes, f: Bytes, rest: Bytes, k: nat)
    requires |a| <= k < |a| + |f|
    ensures (a + (f + rest))[..k] == a + f[..k - |a|]
  {
  }

  /** Torn-log replay: cutting a log after any number of bytes replays exactly its longest prefix of
      whole records, last writer wins. */
  lemma TornReplay(get: Decoder<Record>, es: seq<Logged>, k: nat, m: Sessions)
    requires Shrinks(get) && AllGood(get, es) && k <= |Log(es)|
    ensures Replay(get, Log(es)[..k], m) == (Fold(m, Records(es[..Whole(es, k)])), Whole(es, k))
  {
    var n := Whole(es, k);
    WholeIsLongest(es, k);
    if n < |es| {
      CutInside(es, n, k);
      var j := k - |Log(es[..n])|;
      ReplayResumes(get, es[..n], Put32(es[n].body)[..j], m);
      TornStops(get, es[n], j, Fold(m, Records(es[..n])));
    } else {
      assert es[..n] == es && Log(es)[..k] == Log(es) + [];
      ReplayResumes(get, es, [], m);
    }
  }

  /** A cut inside record `n` leaves the records before it and the front of that one. */
  lemma CutInside(es: seq<Logged>, n: nat, k: nat)
    requires n < |es| && |Log(es[..n])| <= k < |Log(es[..n])| + |Put32(es[n].body)| && k <= |Log(es)|
    ensures Log(es)[..k] == Log(es[..n]) + Put32(es[n].body)[..k - |Log(es[..n])|]
  {
    LogSplits(es, n);
    assert es[n..][0] == es[n] && es[n..][1..] == es[n + 1..];
    LogPrefix(Log(es[..n]), Put32(es[n].body), Log(es[n + 1..]), k);
  }

  /** Replaying a whole log over what it already left changes nothing. */
  lemma ReplayTwice(get: Decoder<Record>, es: seq<Logged>, m: Sessions)
    requires Shrinks(get) && AllGood(get, es)
    ensures Replay(get, Log(es), Replay(get, Log(es), m).0) == Replay(get, Log(es), m)
  {
    assert Log(es) + [] == Log(es);
    ReplayResumes(get, es, [], m);
    ReplayResumes(get, es, [], Fold(m, Records(es)));
    FoldTwice(m, Records(es));
  }

  /** The bytes are those that the code writes for the record. */
  ghost predicate Encoded(codec: PacketCodec, e: Logged) {
    || (exists id :: e == PutRemove(id))
    || (exists w: Walked :: WalkOf(w, w.ps) && PutUpsert(codec, w) == Some(e))
  }

  ghost predicate AllEncoded(codec: PacketCodec, es: seq<Logged>) {
    forall i | 0 <= i < |es| :: Encoded(codec, es[i])
  }

  /** The record is within what the format can hold. */
  predicate FitsFormat(e: Logged) {
    && |e.body| < 0x1_0000_0000
    && match e.record
       case Upsert(ps) => FitsSession(ps)
       case Remove(id) => Fits(id)
  }

  lemma FitsAsHeld(ps: PersistedSession)
    requires FitsSession(Held(ps))
    ensures FitsSession(ps)
  {
    assert HeldInflight(ps.inflight).Keys == ps.inflight.Keys && HeldIncoming(ps.incomingQos2).Keys == ps.incomingQos2.Keys;
    forall i | 0 <= i < |ps.offline| ensures FitsDelivery(ps.offline[i]) { assert FitsDelivery(Held(ps).offline[i]); }
  }

  lemma EncodedIsGood(codec: PacketCodec, e: Logged)
    requires Sound(codec) && Encoded(codec, e) && FitsFormat(e)
    ensures Good(RecordGet(codec), e)
  {
    if id :| e == PutRemove(id) {
      RemoveGood(codec, id);
    } else {
      var w: Walked :| WalkOf(w, w.ps) && PutUpsert(codec, w) == Some(e);
      FitsAsHeld(w.ps);
      UpsertGood(codec, w);
    }
  }

  /** A batch as the code writes it, within the format, replays as exactly its records. */
  lemma BatchReplays(codec: PacketCodec, batch: seq<Logged>, m: Sessions)
    requires Sound(codec) && AllEncoded(codec, batch) && forall i | 0 <= i < |batch| :: FitsFormat(batch[i])
    ensures Shrinks(RecordGet(codec)) && AllGood(RecordGet(codec), batch)
    ensures Replay(RecordGet(codec), Log(batch), m) == (Fold(m, Records(batch)), |batch|)
  {
    RecordShrinks(codec);
    forall i | 0 <= i < |batch| ensures Good(RecordGet(codec), batch[i]) { EncodedIsGood(codec, batch[i]); }
    assert Log(batch) + [] == Log(batch);
    ReplayResumes(RecordGet(codec), batch, [], m);
  }

  // --- reopening after a crash ---------------------------------------------------------------

  /** What a cut left of a frame reads, with the bytes behind it, as a frame again. */
  predicate Completes(get: Decoder<Record>, d: Bytes) {
    |d| >= 4 && var (len, body) := GetU32(d).value; 0 < len <= |body| && get(body).Some?
  }

  lemma ReplayFirst(get: Decoder<Record>, d: Bytes, m: Sessions)
    requires Shrinks(get)
    ensures Replay(get, d, m)
         == if Completes(get, d) then
              var (r, rest) := get(d[4..]).value;
              var (m2, n) := Replay(get, rest, Write(m, r));
              (m2, n + 1)
            else (m, 0)
  {
  }

  lemma CutHeader(body: Bytes, k: nat, more: Bytes)
    requires |body| < 0x1_0000_0000 && 4 <= k < |Put32(body)|
    ensures |Put32(body)| == 4 + |body|
    ensures GetU32(Put32(body)[..k] + more) == Some((|body|, body[..k - 4] + more))
  {
    FrameReads(body, []);
    assert Put32(body)[..k] == PutU32(|body|) + body[..k - 4];
    Assoc(PutU32(|body|), body[..k - 4], more);
    U32Reads(|body|, body[..k - 4] + more);
  }

  /** Reopening after a cut anywhere in a record appends behind what the cut left. The records before it
      are replayed; then what is left of it and what was appended are read as one frame. If that fails,
      nothing more is replayed. Otherwise the next record is what that frame decodes to, and the replay
      goes on behind it. With the length intact, it fails exactly if fewer bytes follow than the frame
      lacks or the torn body, completed by the appended bytes, does not decode. */
  lemma TornTailCompletes(get: Decoder<Record>, es: seq<Logged>, e: Logged, k: nat, more: Bytes, m: Sessions)
    requires Shrinks(get) && AllGood(get, es) && Good(get, e) && k < |Put32(e.body)|
    ensures var d, base := Put32(e.body)[..k] + more, Fold(m, Records(es));
            && Replay(get, Log(es) + d, m)
            == (if Completes(get, d) then
                  var (r, rest) := get(d[4..]).value;
                  var (m2, n) := Replay(get, rest, Write(base, r));
                  (m2, n + 1 + |es|)
                else (base, |es|))
            && (k >= 4 ==>
                  && d[4..] == e.body[..k - 4] + more
                  && (Completes(get, d) <==> |more| >= |Put32(e.body)| - k && get(e.body[..k - 4] + more).Some?))
            && (k < 4 <= |d| ==> d[4..] == more[4 - k..])
  {
    var d := Put32(e.body)[..k] + more;
    ReplayResumes(get, es, d, m);
    ReplayFirst(get, d, Fold(m, Records(es)));
    if k >= 4 { CutHeader(e.body, k, more); }
  }

  /** A tail torn right after a length field hides everything appended behind it, unless the byte that
      follows happens to name a record kind. */
  lemma TornTailHides(codec: PacketCodec, es: seq<Logged>, e: Logged, more: Bytes, m: Sessions)
    requires AllGood(RecordGet(codec), es) && Good(RecordGet(codec), e)
    requires more != [] && more[0] != 1 && more[0] != 2
    ensures Shrinks(RecordGet(codec))
    ensures Replay(RecordGet(codec), Log(es) + (Put32(e.body)[..4] + more), m) == (Fold(m, Records(es)), |es|)
  {
    RecordShrinks(codec);
    TornTailCompletes(RecordGet(codec), es, e, 4, more, m);
    assert e.body[..0] + more == more;
  }

  /** Reopening appends behind the torn tail: a removal logged after the crash is not replayed. */
  lemma ReopenLosesRecords(codec: PacketCodec, ps: PersistedSession)
    ensures Shrinks(RecordGet(codec))
    ensures var torn, appended := Log([PutRemove("aa")])[..4], Log([PutRemove("b")]);
            && Replay(RecordGet(codec), torn + appended, map["b" := ps]) == (map["b" := ps], 0)
            && Replay(RecordGet(codec), appended, map["b" := ps]) == (map[], 1)
  {
    RecordShrinks(codec);
    TornReplaysNothing(codec, "aa", map["b" := ps]);
    LoneReplays(codec, "b", map["b" := ps]);
  }

  lemma LoneLog(e: Logged)
    ensures Log([e]) == Put32(e.body) && Records([e]) == [e.record]
  {
    assert Log([e]) == Put32(e.body) + [] == Put32(e.body);
  }

  lemma TornReplaysNothing(codec: PacketCodec, cut: ClientId, m: Sessions)
    requires Fits(cut)
    ensures Shrinks(RecordGet(codec))
    ensures Replay(RecordGet(codec), Log([PutRemove(cut)])[..4] + Log([PutRemove("b")]), m) == (m, 0)
  {
    var e, f := PutRemove("b"), PutRemove(cut);
    RemoveGood(codec, "b");
    RemoveGood(codec, cut);
    LoneLog(e);
    LoneLog(f);
    FrameHead(e);
    assert Log([]) + (Put32(f.body)[..4] + Log([e])) == Put32(f.body)[..4] + Log([e]);
    TornTailHides(codec, [], f, Log([e]), m);
  }

  lemma LoneReplays(codec: PacketCodec, id: ClientId, m: Sessions)
    requires Fits(id)
    ensures Shrinks(RecordGet(codec))
    ensures Replay(RecordGet(codec), Log([PutRemove(id)]), m) == (m - {id}, 1)
  {
    var e := PutRemove(id);
    RecordShrinks(codec);
    RemoveGood(codec, id);
    LoneLog(e);
    assert Log([e]) + [] == Log([e]);
    ReplayResumes(RecordGet(codec), [e], [], m);
    assert Fold(m, Records([e])) == Write(m, Remove(id));
  }

  lemma RemoveBytes(id: ClientId, bytes: Bytes)
    requires Utf8.Encode(id) == bytes && |bytes| < 256
    ensures PutRemove(id).body == [2, |bytes|, 0] + bytes
    ensures |bytes| < 250 ==> Put32(PutRemove(id).body) == [|bytes| + 3, 0, 0, 0, 2, |bytes|, 0] + bytes
  {
  }

  /** Worse, a cut inside a record can make the replay apply a record that was never logged. The removal
      of "aa" is cut after its first letter; the removal of "b" is appended; what is replayed is the
      removal of a third session, and "b" stays. */
  lemma ReopenInventsRemoval(codec: PacketCodec, ps: PersistedSession)
    ensures Shrinks(RecordGet(codec))
    ensures var torn, appended := Put32(PutRemove("aa").body)[..8], Put32(PutRemove("b").body);
            Replay(RecordGet(codec), torn + appended, map["a\U{4}" := ps, "b" := ps]) == (map["b" := ps], 1)
  {
    var m := map["a\U{4}" := ps, "b" := ps];
    RecordShrinks(codec);
    RemoveGood(codec, "a\U{4}");
    SplicedFrame();
    SplicedReplay(RecordGet(codec), PutRemove("a\U{4}"), m);
    ThirdGoes(ps);
  }

  lemma ThirdGoes(ps: PersistedSession)
    ensures Write(map["a\U{4}" := ps, "b" := ps], Remove("a\U{4}")) == map["b" := ps]
  {
  }

  lemma SmallTexts()
    ensures Utf8.Encode("aa") == [97, 97] && Utf8.Encode("b") == [98] && Utf8.Encode("a\U{4}") == [97, 4]
  {
  }

  /** The front of one removal and the whole of another make a third removal and some rest. */
  lemma SplicedFrame()
    ensures Put32(PutRemove("aa").body)[..8] + Put32(PutRemove("b").body)
         == Put32(PutRemove("a\U{4}").body) + [0, 0, 0, 2, 1, 0, 98]
  {
    SmallTexts();
    RemoveBytes("aa", [97, 97]);
    RemoveBytes("b", [98]);
    RemoveBytes("a\U{4}", [97, 4]);
    Spliced(Put32(PutRemove("aa").body), Put32(PutRemove("b").body), Put32(PutRemove("a\U{4}").body));
  }

  lemma Spliced(a: Bytes, b: Bytes, c: Bytes)
    requires a == [5, 0, 0, 0, 2, 2, 0] + [97, 97] && b == [4, 0, 0, 0, 2, 1, 0] + [98] && c == [5, 0, 0, 0, 2, 2, 0] + [97, 4]
    ensures a[..8] + b == c + [0, 0, 0, 2, 1, 0, 98]
  {
  }

  lemma SplicedReplay(get: Decoder<Record>, e: Logged, m: Sessions)
    requires Shrinks(get) && Good(get, e)
    ensures Replay(get, Put32(e.body) + [0, 0, 0, 2, 1, 0, 98], m) == (Write(m, e.record), 1)
  {
    ReplayOne(get, e, [0, 0, 0, 2, 1, 0, 98], m);
    LongFrameStops(get, [0, 0, 0, 2, 1, 0, 98], Write(m, e.record));
  }

  lemma LongFrameStops(get: Decoder<Record>, d: Bytes, m: Sessions)
    requires Shrinks(get) && d == [0, 0, 0, 2, 1, 0, 98]
    ensures Replay(get, d, m) == (m, 0)
  {
    assert d[..4] == [0, 0, 0, 2];
    assert Number32([0, 0, 0, 2]) > 3;
  }

  lemma FrameHead(e: Logged)
    requires e == PutRemove("b")
    ensures Log([e]) != [] && Log([e])[0] == 4
  {
    assert Log([e]) == Put32(e.body) + [];
  }

  /** The open log of one shard: the file's bytes and the append offset. */
  class LogFile {
    var file: Bytes
    var offset: nat

    ghost predicate Valid()
      reads this
    {
      offset == |file|
    }

    /** Opens what is on disk, positioned at its end, a torn tail included. */
    constructor (onDisk: Bytes)
      ensures Valid() && file == onDisk
    {
      file, offset := onDisk, |onDisk|;
    }

    method Append(bytes: Bytes)
      requires Valid()
      modifies this
      ensures Valid() && file == old(file) + bytes
    {
      if bytes == [] {
        assert file + [] == file;
        return;
      }
      file := file[..offset] + bytes;
      offset := offset + |bytes|;
    }

    /** One batch, framed and appended. */
    method AppendBatch(es: seq<Logged>)
      requires Valid()
      modifies this
      ensures Valid() && file == old(file) + Log(es)
    {
      var bytes := EncodeBatch(es);
      Append(bytes);
    }

    method Truncate()
      modifies this
      ensures Valid() && file == []
    {
      file, offset := [], 0;
    }
  }

  /** A life of the process after a crash and the start of the next: the file is opened as it was left, a
      batch is appended, and then everything is replayed. What that gives is `TornTailCompletes`. */
  method ReopenAndReplay(get: Decoder<Record>, onDisk: Bytes, batch: seq<Logged>, sessions: Sessions)
    returns (out: Sessions, applied: nat)
    requires Shrinks(get)
    ensures (out, applied) == Replay(get, onDisk + Log(batch), sessions)
  {
    var log := new LogFile(onDisk);
    log.AppendBatch(batch);
    out, applied := ApplyLog(get, log.file, sessions);
  }
}
