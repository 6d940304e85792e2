/** swp.go: what Write does with a payload, and what its caller may rely on: the
    bytes the peer reads, and the acknowledged byte count that Write returns. */
module Sessions {
  import opened Integers
  import opened Packets

  const MAX_CHUNK: int := 0x8_0000  // 1 << 19

  datatype SessionConfig = SessionConfig(windowMsgCount: int, windowByteSz: int)

  /** The check and the guess at the start of NewSession. */
  function Normalised(cfg: SessionConfig): (r: Option<SessionConfig>)
    ensures r.Some? <==> cfg.windowMsgCount >= 1
    ensures r.Some? ==> r.value.windowMsgCount == cfg.windowMsgCount <= r.value.windowByteSz
    ensures r.Some? ==> r.value.windowByteSz == (if cfg.windowByteSz >= cfg.windowMsgCount then cfg.windowByteSz
                                                 else 10_240 * cfg.windowMsgCount)
  {
    if cfg.windowMsgCount < 1 then None
    else if cfg.windowByteSz < cfg.windowMsgCount then Some(cfg.(windowByteSz := cfg.windowMsgCount * 10 * 1024))
    else Some(cfg)
  }

  /** The size of a chunk: never 0 in a session that NewSession made. */
  function ChunkSize(windowByteSz: int): (sz: int)
    ensures sz <= MAX_CHUNK && (windowByteSz != 0 ==> sz >= 1)
    ensures windowByteSz >= 1 ==> sz <= windowByteSz
    ensures sz == windowByteSz || sz == 0x8_0000
  {
    var sz := Min(windowByteSz, MAX_CHUNK);
    if sz < 0 then MAX_CHUNK else sz
  }

  /** The payload cut into pieces of sz bytes, the last one possibly shorter. */
  function Chunks(payload: seq<byte>, sz: nat): (cs: seq<seq<byte>>)
    requires sz >= 1
    ensures forall i :: 0 <= i < |cs| ==> 1 <= |cs[i]| <= sz && (i < |cs| - 1 ==> |cs[i]| == sz)
    decreases |payload|
  {
    if payload == [] then []
    else if |payload| <= sz then [payload]
    else [payload[..sz]] + Chunks(payload[sz..], sz)
  }

  function Join(chunks: seq<seq<byte>>): seq<byte> {
    if chunks == [] then [] else chunks[0] + Join(chunks[1..])
  }

  lemma {:induction false} ChunksJoin(payload: seq<byte>, sz: nat)
    requires sz >= 1
    ensures Join(Chunks(payload, sz)) == payload
    decreases |payload|
  {
    if |payload| > sz {
      ChunksJoin(payload[sz..], sz);
    } else if payload != [] {
      assert [payload][1..] == [];
    }
  }

  lemma {:induction false} JoinConcat(a: seq<seq<byte>>, b: seq<seq<byte>>)
    ensures Join(a + b) == Join(a) + Join(b)
  {
    if a == [] {
      assert a + b == b;
    } else {
      assert (a + b)[1..] == a[1..] + b;
      JoinConcat(a[1..], b);
    }
  }

  /** A packet as Write hands it to the sender. */
  datatype Piece = Piece(data: seq<byte>, account: nat, cliAcked: bool)

  function Datas(ps: seq<Piece>): (ds: seq<seq<byte>>)
    ensures |ds| == |ps| && forall i :: 0 <= i < |ps| ==> ds[i] == ps[i].data
  {
    seq(|ps|, i requires 0 <= i < |ps| => ps[i].data)
  }

  /** The pieces of one Write: its chunks in order, all on its own account, and the
      last one, only, tells Write that it was acknowledged. */
  ghost predicate PiecesOf(ps: seq<Piece>, payload: seq<byte>, sz: nat, account: nat)
    requires sz >= 1
  {
    && Datas(ps) == Chunks(payload, sz)
    && forall i :: 0 <= i < |ps| ==> ps[i].account == account && (ps[i].cliAcked <==> i == |ps| - 1)
  }

  /** Where chunk i starts. */
  function Offset(i: int, sz: int): int {
    i * sz
  }

  /** npack is the number of chunks of lenp bytes: chunk i starts inside the payload
      exactly for i < npack. */
  ghost predicate IsPackCount(npack: nat, lenp: nat, sz: nat) {
    Offset(npack, sz) >= lenp && (npack > 0 ==> Offset(npack - 1, sz) < lenp)
  }

  lemma PackCount(lenp: nat, sz: nat)
    requires sz >= 1
    ensures var q := lenp / sz; IsPackCount(if lenp - q * sz > 0 then q + 1 else q, lenp, sz)
  {
    var q := lenp / sz;
    assert lenp == q * sz + lenp % sz;
    if lenp - q * sz > 0 {
      assert (q + 1) * sz == q * sz + sz;
    } else {
      assert q * sz == lenp;
      if q > 0 { assert (q - 1) * sz == q * sz - sz; }
    }
  }

  lemma Times(a: nat, b: nat, sz: nat)
    requires a <= b
    ensures a * sz <= b * sz
  {
  }

  lemma Offsets(i: nat, npack: nat, sz: nat, lenp: nat)
    requires sz >= 1 && i < npack && IsPackCount(npack, lenp, sz)
    ensures 0 <= Offset(i, sz) < lenp && Offset(i + 1, sz) == Offset(i, sz) + sz
    ensures Offset(i + 1, sz) >= lenp <==> i == npack - 1
  {
    Times(0, i, sz);
    Times(i, npack - 1, sz);
    assert (i + 1) * sz == i * sz + sz;
    if i < npack - 1 {
      Times(i + 1, npack - 1, sz);
    }
  }

  /** So npack is the length of Chunks. */
  lemma {:induction false} ChunkCount(payload: seq<byte>, sz: nat, npack: nat)
    requires sz >= 1 && IsPackCount(npack, |payload|, sz)
    ensures |Chunks(payload, sz)| == npack
    decreases |payload|
  {
    if payload == [] {
      if npack > 0 { Times(0, npack - 1, sz); }
    } else if |payload| <= sz {
      if npack >= 2 { Times(1, npack - 1, sz); }
    } else {
      if npack > 0 {
        assert npack * sz == (npack - 1) * sz + sz;
        if npack > 1 { assert (npack - 1) * sz == (npack - 2) * sz + sz; }
      }
      ChunkCount(payload[sz..], sz, npack - 1);
    }
  }

  /** The chunk that starts at off, and those after it. */
  lemma NextChunk(payload: seq<byte>, sz: nat, off: nat)
    requires sz >= 1 && off < |payload|
    ensures var end := Min(off + sz, |payload|);
            Chunks(payload[off..], sz) == [payload[off..end]] + Chunks(payload[end..], sz)
  {
    var rest := payload[off..];
    if |rest| > sz {
      assert rest[sz..] == payload[off + sz..];
      assert rest[..sz] == payload[off..off + sz];
    } else {
      assert payload[off..|payload|] == rest && payload[|payload|..] == [];
      assert Chunks([], sz) == [] && [rest] + [] == [rest];
    }
  }

  /** The pieces sent hold the chunks before off, and the last of all is marked. */
  ghost predicate SentUpTo(sent: seq<Piece>, payload: seq<byte>, sz: nat, account: nat, off: nat)
    requires sz >= 1
  {
    && off <= |payload| && Datas(sent) + Chunks(payload[off..], sz) == Chunks(payload, sz)
    && forall k :: 0 <= k < |sent| ==>
         sent[k].account == account && (sent[k].cliAcked <==> k == |sent| - 1 && off == |payload|)
  }

  lemma SentNone(payload: seq<byte>, sz: nat, account: nat)
    requires sz >= 1
    ensures SentUpTo([], payload, sz, account, 0)
  {
    assert payload[0..] == payload;
    assert Datas([]) + Chunks(payload, sz) == Chunks(payload, sz);
  }

  lemma SentNext(sent: seq<Piece>, payload: seq<byte>, sz: nat, account: nat, off: nat, p: Piece)
    requires sz >= 1 && SentUpTo(sent, payload, sz, account, off) && off < |payload|
    requires var end := Min(off + sz, |payload|); p == Piece(payload[off..end], account, end == |payload|)
    ensures SentUpTo(sent + [p], payload, sz, account, Min(off + sz, |payload|))
  {
    var end := Min(off + sz, |payload|);
    NextChunk(payload, sz, off);
    var rest := Chunks(payload[end..], sz);
    hide Chunks;
    assert Datas(sent) + ([p.data] + rest) == Datas(sent + [p]) + rest;
  }

  lemma SentAll(sent: seq<Piece>, payload: seq<byte>, sz: nat, account: nat)
    requires sz >= 1 && SentUpTo(sent, payload, sz, account, |payload|)
    ensures PiecesOf(sent, payload, sz, account)
  {
    assert payload[|payload|..] == [] && Chunks([], sz) == [];
    assert Datas(sent) + [] == Datas(sent);
  }

  /** The chunks of several payloads, one after the other. */
  function AllChunks(payloads: seq<seq<byte>>, sz: nat): seq<seq<byte>>
    requires sz >= 1
  {
    if payloads == [] then [] else Chunks(payloads[0], sz) + AllChunks(payloads[1..], sz)
  }

  lemma {:induction false} AllChunksJoin(payloads: seq<seq<byte>>, sz: nat)
    requires sz >= 1
    ensures Join(AllChunks(payloads, sz)) == Join(payloads)
  {
    if payloads != [] {
      ChunksJoin(payloads[0], sz);
      AllChunksJoin(payloads[1..], sz);
      JoinConcat(Chunks(payloads[0], sz), AllChunks(payloads[1..], sz));
    }
  }

  /** The pieces handed to the send loop so far are the chunks of these payloads. */
  ghost predicate WroteAll(handed: seq<Piece>, payloads: seq<seq<byte>>, sz: nat)
    requires sz >= 1
  {
    Datas(handed) == AllChunks(payloads, sz)
  }

  /** The pieces of account a, in order. */
  function Of(a: nat, ps: seq<Piece>): seq<Piece> {
    if ps == [] then []
    else
      var p := ps[|ps| - 1];
      Of(a, ps[..|ps| - 1]) + (if p.account == a then [p] else [])
  }

  lemma {:induction false} OfConcat(a: nat, xs: seq<Piece>, ys: seq<Piece>)
    ensures Of(a, xs + ys) == Of(a, xs) + Of(a, ys)
  {
    if ys == [] {
      assert xs + ys == xs;
    } else {
      assert (xs + ys)[..|xs + ys| - 1] == xs + ys[..|ys| - 1];
      OfConcat(a, xs, ys[..|ys| - 1]);
    }
  }

  lemma {:induction false} OfNone(a: nat, ps: seq<Piece>)
    requires forall i :: 0 <= i < |ps| ==> ps[i].account != a
    ensures Of(a, ps) == []
  {
    if ps != [] {
      OfNone(a, ps[..|ps| - 1]);
    }
  }

  lemma {:induction false} OfAll(a: nat, ps: seq<Piece>)
    requires forall i :: 0 <= i < |ps| ==> ps[i].account == a
    ensures Of(a, ps) == ps
  {
    if ps != [] {
      var n := |ps| - 1;
      OfAll(a, ps[..n]);
      assert ps == ps[..n] + [ps[n]];
    }
  }

  /** Accounts below n are in use. */
  ghost predicate AccountsBelow(ps: seq<Piece>, n: nat) {
    forall i :: 0 <= i < |ps| ==> ps[i].account < n
  }

  /** The pieces of a new account are those of its Write, and stay so. */
  lemma OwnPieces(handed: seq<Piece>, sent: seq<Piece>, payload: seq<byte>, sz: nat, a: nat)
    requires sz >= 1 && AccountsBelow(handed, a) && PiecesOf(sent, payload, sz, a)
    ensures AccountsBelow(handed + sent, a + 1) && Of(a, handed + sent) == sent
  {
    OfConcat(a, handed, sent);
    OfNone(a, handed);
    OfAll(a, sent);
    assert [] + sent == sent;
  }

  lemma OthersPieces(handed: seq<Piece>, sent: seq<Piece>, payload: seq<byte>, sz: nat, a: nat, other: nat)
    requires sz >= 1 && PiecesOf(sent, payload, sz, a) && other != a
    ensures Of(other, handed + sent) == Of(other, handed)
  {
    OfConcat(other, handed, sent);
    OfNone(other, sent);
    assert Of(other, handed) + [] == Of(other, handed);
  }

  /** A Write adds its payload to those written. */
  lemma WroteMore(handed: seq<Piece>, payloads: seq<seq<byte>>, sent: seq<Piece>, payload: seq<byte>, sz: nat, a: nat)
    requires sz >= 1 && WroteAll(handed, payloads, sz) && PiecesOf(sent, payload, sz, a)
    ensures WroteAll(handed + sent, payloads + [payload], sz)
  {
    assert Datas(handed + sent) == Datas(handed) + Datas(sent);
    AllChunksMore(payloads, payload, sz);
  }

  lemma {:induction false} AllChunksMore(payloads: seq<seq<byte>>, payload: seq<byte>, sz: nat)
    requires sz >= 1
    ensures AllChunks(payloads + [payload], sz) == AllChunks(payloads, sz) + Chunks(payload, sz)
  {
    if payloads == [] {
      assert [payload][1..] == [];
      assert AllChunks([payload], sz) == Chunks(payload, sz) + AllChunks([], sz);
    } else {
      assert (payloads + [payload])[1..] == payloads[1..] + [payload];
      AllChunksMore(payloads[1..], payload, sz);
    }
  }

  /** What Write does for all that was written before it: the payloads handed over are
      one more, the new account has its pieces, and no other account has more or fewer. */
  ghost predicate AddsWrite(before: seq<Piece>, after: seq<Piece>, sent: seq<Piece>, payload: seq<byte>, sz: nat, a: nat)
    requires sz >= 1
  {
    && (forall payloads :: WroteAll(before, payloads, sz) ==> WroteAll(after, payloads + [payload], sz))
    && (AccountsBelow(before, a) ==> AccountsBelow(after, a + 1) && Of(a, after) == sent)
    && (forall other: nat :: other != a ==> Of(other, after) == Of(other, before))
  }

  lemma PiecesAdd(before: seq<Piece>, sent: seq<Piece>, payload: seq<byte>, sz: nat, a: nat)
    requires sz >= 1 && PiecesOf(sent, payload, sz, a)
    ensures AddsWrite(before, before + sent, sent, payload, sz, a)
  {
    hide WroteAll, PiecesOf, Of, AccountsBelow;
    forall payloads | WroteAll(before, payloads, sz)
      ensures WroteAll(before + sent, payloads + [payload], sz)
    {
      WroteMore(before, payloads, sent, payload, sz, a);
    }
    if AccountsBelow(before, a) {
      OwnPieces(before, sent, payload, sz, a);
    }
    forall other: nat | other != a
      ensures Of(other, before + sent) == Of(other, before)
    {
      OthersPieces(before, sent, payload, sz, a, other);
    }
  }

  lemma NoPieces(sz: nat, a: nat)
    requires sz >= 1
    ensures PiecesOf([], [], sz, a)
  {
  }

  class Session {
    const Cfg: SessionConfig
    var BlockingSend: seq<Piece>  // what was handed to the sender, in order
    var accounts: nat             // each Write makes its own ByteAccount

    constructor (cfg: SessionConfig)
      requires cfg.windowMsgCount >= 1
      ensures Some(Cfg) == Normalised(cfg) && BlockingSend == [] && accounts == 0
    {
      Cfg := if cfg.windowByteSz < cfg.windowMsgCount then cfg.(windowByteSz := cfg.windowMsgCount * 10 * 1024) else cfg;
      BlockingSend, accounts := [], 0;
    }

    method Push(p: Piece)
      modifies this`BlockingSend
      ensures BlockingSend == old(BlockingSend) + [p]
    {
      BlockingSend := BlockingSend + [p];
    }

    /** Write, up to the wait for the acknowledgement. */
    method Write(payload: seq<byte>) returns (ba: nat, ghost sent: seq<Piece>)
      requires Cfg.windowByteSz != 0
      modifies this
      ensures BlockingSend == old(BlockingSend) + sent && ba == old(accounts) && accounts == ba + 1
      ensures PiecesOf(sent, payload, ChunkSize(Cfg.windowByteSz), ba)
      ensures AddsWrite(old(BlockingSend), BlockingSend, sent, payload, ChunkSize(Cfg.windowByteSz), ba)
    {
      hide AddsWrite, PiecesOf;
      ba, accounts, sent := accounts, accounts + 1, [];
      ghost var before := BlockingSend;
      var lenp := |payload|;
      if lenp == 0 {
        NoPieces(ChunkSize(Cfg.windowByteSz), ba);
        PiecesAdd(before, sent, payload, ChunkSize(Cfg.windowByteSz), ba);
        assert before + sent == before;
        return;
      }
      var sz := Min(Cfg.windowByteSz, MAX_CHUNK);
      if sz < 0 {
        sz := MAX_CHUNK;
      }
      var npack := lenp / sz;
      if lenp - npack * sz > 0 {
        npack := npack + 1;
      }
      PackCount(lenp, sz);
      hide IsPackCount;
      sent := PushChunks(payload, sz, npack, ba);
      PiecesAdd(before, sent, payload, sz, ba);
    }

    /** The loop of Write. */
    method PushChunks(payload: seq<byte>, sz: nat, npack: nat, ba: nat) returns (ghost sent: seq<Piece>)
      requires sz >= 1 && IsPackCount(npack, |payload|, sz)
      modifies this`BlockingSend
      ensures BlockingSend == old(BlockingSend) + sent && PiecesOf(sent, payload, sz, ba)
    {
      hide SentUpTo, PiecesOf, Offset;
      sent := [];
      var lenp := |payload|;
      SentNone(payload, sz, ba);
      NoOffset(sz);
      for i := 0 to npack
        invariant BlockingSend == old(BlockingSend) + sent
        invariant Offset(i, sz) >= 0 && SentUpTo(sent, payload, sz, ba, Min(Offset(i, sz), lenp))
      {
        Offsets(i, npack, sz, lenp);
        var pack := Piece(payload[Offset(i, sz)..Min(Offset(i + 1, sz), lenp)], ba, false);
        if i == npack - 1 {
          pack := pack.(cliAcked := true);
        }
        Push(pack);
        SentNext(sent, payload, sz, ba, Offset(i, sz), pack);
        sent := sent + [pack];
      }
      SentAll(sent, payload, sz, ba);
    }

    lemma NoOffset(sz: nat)
      ensures Offset(0, sz) == 0
    {
    }
  }
}
