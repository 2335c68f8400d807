/**
 The shared memory transport (rpmi_shmem.c): a ring of message slots with one producer and
 one consumer, which share nothing but memory. A step is one access to a word of it.
 */
module ShmemRing {
  import opened Options

  type Word = bv32

  datatype Header = Header(group: bv16, service: bv8, flags: bv8, datalen: bv16, token: bv16)
  datatype Message = Message(hdr: Header, data: seq<Word>)

  // ---- the header in two words -------------------------------------------------------------

  function Pack0(h: Header): Word {
    (h.group as Word) | ((h.service as Word) << 16) | ((h.flags as Word) << 24)
  }

  function Pack1(h: Header): Word {
    (h.datalen as Word) | ((h.token as Word) << 16)
  }

  function Unpack(w0: Word, w1: Word): Header {
    Header((w0 & 0xffff) as bv16, ((w0 >> 16) & 0xff) as bv8, ((w0 >> 24) & 0xff) as bv8,
           (w1 & 0xffff) as bv16, ((w1 >> 16) & 0xffff) as bv16)
  }

  /** Where the fields of a header are in its words. */
  lemma HeaderFields(h: Header)
    ensures Pack0(h) & 0xffff == h.group as Word && Pack0(h) >> 24 == h.flags as Word
    ensures (Pack0(h) >> 16) & 0xff == h.service as Word
    ensures Pack1(h) & 0xffff == h.datalen as Word && Pack1(h) >> 16 == h.token as Word
  {
  }

  /** A header survives. */
  lemma PackUnpack(h: Header)
    ensures Unpack(Pack0(h), Pack1(h)) == h
  {
    PackUnpack0(h.group, h.service, h.flags);
    PackUnpack1(h.datalen, h.token);
  }

  lemma PackUnpack0(g: bv16, s: bv8, f: bv8)
    ensures var w := (g as Word) | ((s as Word) << 16) | ((f as Word) << 24);
            (w & 0xffff) as bv16 == g && ((w >> 16) & 0xff) as bv8 == s && ((w >> 24) & 0xff) as bv8 == f
  {
  }

  lemma PackUnpack1(d: bv16, t: bv16)
    ensures var w := (d as Word) | ((t as Word) << 16);
            (w & 0xffff) as bv16 == d && ((w >> 16) & 0xffff) as bv16 == t
  {
  }

  // ---- slots ----------------------------------------------------------------------------------

  /** (x + 1) % n, for a slot index. */
  function Next(x: nat, n: nat): (r: nat)
    requires x < n
    ensures r < n
  {
    if x + 1 == n then 0 else x + 1
  }

  /** The slot of the i-th message. */
  function Slot(i: nat, n: nat): (r: nat)
    requires n > 0
    ensures r < n
  {
    if i == 0 then 0 else Next(Slot(i - 1, n), n)
  }

  lemma {:induction false} SlotPlus(i: nat, d: nat, n: nat)
    requires d < n
    ensures Slot(i + d, n) == if Slot(i, n) + d < n then Slot(i, n) + d else Slot(i, n) + d - n
    decreases d
  {
    if d > 0 {
      SlotPlus(i, d - 1, n);
      assert Slot(i + d, n) == Next(Slot(i + d - 1, n), n);
    }
  }

  /** Messages less than a turn apart have different slots. */
  lemma SlotsDiffer(i: nat, j: nat, n: nat)
    requires i < j < i + n
    ensures Slot(i, n) != Slot(j, n)
  {
    SlotPlus(i, j - i, n);
  }

  // ---- the two sides ----------------------------------------------------------------------------

  /** The words of a message in its slot. */
  function Words(m: Message): (ws: seq<Word>)
    ensures |ws| == 2 + |m.data|
  {
    [Pack0(m.hdr), Pack1(m.hdr)] + m.data
  }

  datatype Producer =
    | Ready
    | Sending(msg: Message)                        // about to read the head
    | Checking(msg: Message, head: nat, seen: nat) // has read it; `seen`: how many were received then
    | Writing(msg: Message, k: nat)                // words written so far

  datatype Consumer =
    | Waiting
    | Receiving(max: nat)                          // about to read the tail
    | Reading(max: nat, got: seq<Word>)            // words read so far
    | Leaving(receipt: Receipt)                    // about to write the head

  /** What rpmi_shmem_recv() gives: no data if the message is not for a buffer of `max` bytes. */
  datatype Receipt = Receipt(hdr: Header, data: Option<seq<Word>>, max: nat)

  /** `sent` and `received` are histories. */
  datatype State = State(head: nat, tail: nat, slots: seq<seq<Word>>, prod: Producer, cons: Consumer,
                         sent: seq<Message>, received: seq<Receipt>)

  /** msg_slots, and the words of a slot. */
  datatype Config = Config(slots: nat, words: nat)

  predicate Wf(c: Config, s: State) {
    && c.slots > 0 && c.words >= 2
    && s.head < c.slots && s.tail < c.slots
    && |s.slots| == c.slots && (forall i :: 0 <= i < c.slots ==> |s.slots[i]| == c.words)
  }

  function DataLen(h: Header): nat {
    h.datalen as nat
  }

  /** The data of a message: the whole words of the length in its header. */
  predicate WfMessage(m: Message) {
    |m.data| == DataLen(m.hdr) / 4
  }

  predicate Sendable(c: Config, m: Message) {
    WfMessage(m) && DataLen(m.hdr) <= 4 * c.words - 8
  }

  datatype Action = Send(msg: Message) | Recv(max: nat) | Produce | Consume

  function ProduceStep(c: Config, s: State): Option<State>
    requires Wf(c, s)
  {
    match s.prod
    case Ready => None
    case Sending(m) => Some(s.(prod := Checking(m, s.head, |s.received|)))
    case Checking(m, head, _) =>
      // RPMI_ERR_BUSY when it is full, RPMI_ERR_INVALID_PARAM when the message is too long
      Some(s.(prod := if Next(s.tail, c.slots) == head || !Sendable(c, m) then Ready else Writing(m, 0)))
    case Writing(m, k) =>
      if k < |Words(m)| && k < c.words then
        Some(s.(slots := s.slots[s.tail := s.slots[s.tail][k := Words(m)[k]]], prod := Writing(m, k + 1)))
      else Some(s.(tail := Next(s.tail, c.slots), prod := Ready, sent := s.sent + [m]))
  }

  /** With the header read: is there data to read? */
  predicate Takes(c: Config, hdr: Header, max: nat) {
    DataLen(hdr) % 4 == 0 && DataLen(hdr) <= 4 * c.words - 8 && DataLen(hdr) <= max
  }

  function ConsumeStep(c: Config, s: State): Option<State>
    requires Wf(c, s)
  {
    match s.cons
    case Waiting => None
    case Receiving(max) =>
      // no data if head and tail are equal
      Some(s.(cons := if s.head == s.tail then Waiting else Reading(max, [])))
    case Reading(max, got) =>
      if |got| < 2 then Some(s.(cons := Reading(max, got + [s.slots[s.head][|got|]])))
      else
        var hdr := Unpack(got[0], got[1]);
        if !Takes(c, hdr, max) then Some(s.(cons := Leaving(Receipt(hdr, None, max))))
        else if |got| < 2 + DataLen(hdr) / 4 then Some(s.(cons := Reading(max, got + [s.slots[s.head][|got|]])))
        else Some(s.(cons := Leaving(Receipt(hdr, Some(got[2..]), max))))
    case Leaving(receipt) =>
      Some(s.(head := Next(s.head, c.slots), cons := Waiting, received := s.received + [receipt]))
  }

  function Step(c: Config, s: State, a: Action): Option<State> {
    if !Wf(c, s) then None
    else match a
      case Send(m) => if s.prod == Ready && WfMessage(m) then Some(s.(prod := Sending(m))) else None
      case Recv(max) => if s.cons == Waiting then Some(s.(cons := Receiving(max))) else None
      case Produce => ProduceStep(c, s)
      case Consume => ConsumeStep(c, s)
  }

  predicate Init(c: Config, s: State) {
    Wf(c, s) && s.head == 0 && s.tail == 0 && s.prod == Ready && s.cons == Waiting && s.sent == [] && s.received == []
  }

  ghost predicate IsRun(c: Config, run: seq<State>, acts: seq<Action>) {
    && |run| == |acts| + 1 && Init(c, run[0])
    && (forall i :: 0 <= i < |acts| ==> Step(c, run[i], acts[i]) == Some(run[i + 1]))
  }

  // ---- a bounded queue ----------------------------------------------------------------------------

  /** What a receiver is to get of message `m`. */
  predicate Answers(c: Config, r: Receipt, m: Message) {
    r.hdr == m.hdr && r.data == if DataLen(m.hdr) % 4 == 0 && DataLen(m.hdr) <= r.max then Some(m.data) else None
  }

  /** Message `i` is in its slot. */
  ghost predicate InSlot(c: Config, s: State, i: nat)
    requires Wf(c, s) && i < |s.sent|
  {
    Sendable(c, s.sent[i]) && Words(s.sent[i]) <= s.slots[Slot(i, c.slots)]
  }

  ghost predicate ProducerOk(c: Config, s: State)
    requires Wf(c, s)
  {
    match s.prod
    case Checking(m, head, seen) => seen <= |s.received| && |s.sent| < seen + c.slots && head == Slot(seen, c.slots)
    case Writing(m, k) =>
      && Sendable(c, m) && k <= |Words(m)| && |s.sent| + 1 < |s.received| + c.slots
      && Words(m)[..k] == s.slots[s.tail][..k]
    case _ => true
  }

  ghost predicate ConsumerOk(c: Config, s: State)
    requires Wf(c, s)
  {
    match s.cons
    case Reading(max, got) => |s.received| < |s.sent| && got <= Words(s.sent[|s.received|])
    case Leaving(r) => |s.received| < |s.sent| && Answers(c, r, s.sent[|s.received|])
    case _ => true
  }

  /** The ring is the queue of the messages sent and not received, at most slots - 1. */
  ghost predicate Queued(c: Config, s: State) {
    && Wf(c, s)
    && |s.received| <= |s.sent| < |s.received| + c.slots
    && s.head == Slot(|s.received|, c.slots) && s.tail == Slot(|s.sent|, c.slots)
    && (forall i :: |s.received| <= i < |s.sent| ==> InSlot(c, s, i))
    && (forall i :: 0 <= i < |s.received| ==> Answers(c, s.received[i], s.sent[i]))
    && ProducerOk(c, s) && ConsumerOk(c, s)
  }

  lemma WriteKeeps(c: Config, s: State, r: State)
    requires Queued(c, s) && s.prod.Writing? && ProduceStep(c, s) == Some(r)
    ensures Queued(c, r)
  {
    var m, k := s.prod.msg, s.prod.k;
    var n := c.slots;
    if k < |Words(m)| {
      forall i | |r.received| <= i < |r.sent| ensures InSlot(c, r, i) {
        assert InSlot(c, s, i);
        SlotsDiffer(i, |s.sent|, n);
      }
      assert Words(m)[..k + 1] == Words(m)[..k] + [Words(m)[k]];
      assert r.slots[s.tail][..k + 1] == s.slots[s.tail][..k] + [Words(m)[k]];
    } else {
      forall i | |r.received| <= i < |r.sent| ensures InSlot(c, r, i) {
        if i < |s.sent| {
          assert InSlot(c, s, i);
        } else {
          assert Words(m)[..k] == Words(m);
        }
      }
    }
  }

  lemma CheckKeeps(c: Config, s: State, r: State)
    requires Queued(c, s) && s.prod.Checking? && ProduceStep(c, s) == Some(r)
    ensures Queued(c, r)
  {
    var seen, n := s.prod.seen, c.slots;
    if r.prod.Writing? && |s.sent| + 1 == seen + n {
      SlotPlus(seen, n - 1, n);
    }
    forall i | |r.received| <= i < |r.sent| ensures InSlot(c, r, i) {
      assert InSlot(c, s, i);
    }
  }

  lemma ProduceKeeps(c: Config, s: State, r: State)
    requires Queued(c, s) && ProduceStep(c, s) == Some(r)
    ensures Queued(c, r)
  {
    if s.prod.Writing? {
      WriteKeeps(c, s, r);
    } else if s.prod.Checking? {
      CheckKeeps(c, s, r);
    } else {
      forall i | |r.received| <= i < |r.sent| ensures InSlot(c, r, i) {
        assert InSlot(c, s, i);
      }
    }
  }

  lemma ReadKeeps(c: Config, s: State, r: State)
    requires Queued(c, s) && s.cons.Reading? && ConsumeStep(c, s) == Some(r)
    ensures ConsumerOk(c, r)
  {
    var m, got := s.sent[|s.received|], s.cons.got;
    assert InSlot(c, s, |s.received|);
    if |got| >= 2 {
      PackUnpack(m.hdr);
      assert got[0] == Words(m)[0] && got[1] == Words(m)[1];
      var hdr := Unpack(got[0], got[1]);
      if Takes(c, hdr, s.cons.max) && |got| >= 2 + DataLen(hdr) / 4 {
        assert got == Words(m) && got[2..] == m.data;
      }
    }
  }

  lemma ConsumeKeeps(c: Config, s: State, r: State)
    requires Queued(c, s) && ConsumeStep(c, s) == Some(r)
    ensures Queued(c, r)
  {
    if s.cons.Reading? {
      ReadKeeps(c, s, r);
    }
    ConsumeLeaves(c, s, r);
  }

  /** What is behind the message being read stays in its slots. */
  lemma ConsumeLeaves(c: Config, s: State, r: State)
    requires Queued(c, s) && ConsumeStep(c, s) == Some(r)
    ensures forall i :: |r.received| <= i < |r.sent| ==> InSlot(c, r, i)
  {
    forall i | |r.received| <= i < |r.sent| ensures InSlot(c, r, i) {
      assert InSlot(c, s, i);
    }
  }

  lemma {:induction false} AlwaysQueued(c: Config, run: seq<State>, acts: seq<Action>, i: nat)
    requires IsRun(c, run, acts) && i < |run|
    ensures Queued(c, run[i])
  {
    if i > 0 {
      var k := i - 1;
      AlwaysQueued(c, run, acts, k);
      assert Step(c, run[k], acts[k]) == Some(run[k + 1]);
      match acts[k]
      case Produce => ProduceKeeps(c, run[k], run[k + 1]);
      case Consume => ConsumeKeeps(c, run[k], run[k + 1]);
      case _ =>
        forall j | |run[i].received| <= j < |run[i].sent| ensures InSlot(c, run[i], j) {
          assert InSlot(c, run[k], j);
        }
    }
  }

  /** Messages arrive whole and in order, and at most slots - 1 are on the way. */
  lemma RingIsFifo(c: Config, run: seq<State>, acts: seq<Action>, i: nat)
    requires IsRun(c, run, acts) && i < |run|
    ensures var s := run[i];
            && |s.received| <= |s.sent| <= |s.received| + c.slots - 1
            && forall k :: 0 <= k < |s.received| ==> Answers(c, s.received[k], s.sent[k])
  {
    AlwaysQueued(c, run, acts, i);
  }

  /** A producer is turned away just when the ring was full as it looked. */
  lemma BusyMeansFull(c: Config, s: State)
    requires Queued(c, s) && s.prod.Checking?
    ensures Next(s.tail, c.slots) == s.prod.head <==> |s.sent| + 1 == s.prod.seen + c.slots
  {
    var seen, n := s.prod.seen, c.slots;
    SlotPlus(seen, |s.sent| - seen, n);
  }

  /** A consumer finds nothing just when there is nothing. */
  lemma NoDataMeansEmpty(c: Config, s: State)
    requires Queued(c, s)
    ensures s.head == s.tail <==> |s.received| == |s.sent|
  {
    if |s.received| < |s.sent| {
      SlotsDiffer(|s.received|, |s.sent|, c.slots);
    }
  }
}

/**
 The same code on memory it cannot trust: another agent may write any word of it at any
 time, so each read gives whatever it gives.
 */
module ShmemAccess {
  import opened Options
  import opened ShmemRing

  datatype Error = Success | Io | NoData | Busy | BadRange | InvalidParam

  /** One access: to the head or tail index, or to word `k` of a slot. */
  datatype Access =
    | ReadHead(index: nat) | ReadTail(index: nat) | ReadWord(slot: nat, k: nat, word: Word)
    | WriteHead(index: nat) | WriteTail(index: nat) | WriteWord(slot: nat, k: nat, word: Word)

  /** The words of one slot, read from word `from` on. */
  function Reads(slot: nat, from: nat, ws: seq<Word>): (r: seq<Access>)
    ensures |r| == |ws|
  {
    seq(|ws|, i requires 0 <= i < |ws| => ReadWord(slot, from + i, ws[i]))
  }

  function Writes(slot: nat, ws: seq<Word>): (r: seq<Access>)
    ensures |r| == |ws|
  {
    seq(|ws|, i requires 0 <= i < |ws| => WriteWord(slot, i, ws[i]))
  }

  /** The access is to an index, or to a word that slot `slot` has. */
  predicate Within(c: Config, slot: nat, a: Access) {
    match a
    case ReadWord(s, k, _) => s == slot < c.slots && k < c.words
    case WriteWord(s, k, _) => s == slot < c.slots && k < c.words
    case WriteHead(index) => index < c.slots
    case WriteTail(index) => index < c.slots
    case _ => true
  }

  ghost predicate AllWithin(c: Config, slot: nat, accs: seq<Access>) {
    forall i :: 0 <= i < |accs| ==> Within(c, slot, accs[i])
  }

  /** Head and tail were read as given, and name no slot. */
  predicate Bad(c: Config, head: nat, tail: nat) {
    head >= c.slots || tail >= c.slots
  }

  /** Its accesses to a message in slot `head`. */
  function TakeAccs(c: Config, head: nat, w0: Word, w1: Word, ws: seq<Word>): (r: seq<Access>)
    requires head < c.slots
    ensures |r| == 3 + |ws| && r[0] == ReadWord(head, 0, w0) && r[1] == ReadWord(head, 1, w1)
  {
    [ReadWord(head, 0, w0), ReadWord(head, 1, w1)] + Reads(head, 2, ws) + [WriteHead(Next(head, c.slots))]
  }

  /** What it makes of them. */
  ghost predicate Taken(c: Config, max: nat, w0: Word, w1: Word, rc: Error, hdr: Option<Header>, ws: seq<Word>) {
    && hdr == Some(Unpack(w0, w1))
    && rc == (if Takes(c, hdr.value, max) then Success else BadRange)
    && |ws| == (if rc == Success then DataLen(hdr.value) / 4 else 0)
  }

  /** What rpmi_shmem_recv() may do: its accesses, result, header and the words it stores. */
  ghost predicate Received(c: Config, max: nat, accs: seq<Access>, rc: Error, hdr: Option<Header>, ws: seq<Word>) {
    && |accs| >= 2 && accs[0].ReadHead? && accs[1].ReadTail?
    && var head, tail := accs[0].index, accs[1].index;
       if Bad(c, head, tail) || head == tail then
         rc == (if Bad(c, head, tail) then Io else NoData) && |accs| == 2 && hdr == None && ws == []
       else
         && |accs| >= 4 && accs[2].ReadWord? && accs[3].ReadWord?
         && Taken(c, max, accs[2].word, accs[3].word, rc, hdr, ws)
         && accs == accs[..2] + TakeAccs(c, head, accs[2].word, accs[3].word, ws)
  }

  /** ... all of it in one slot, and no more than the caller's buffer takes. */
  lemma ReceivedWithin(c: Config, max: nat, accs: seq<Access>, rc: Error, hdr: Option<Header>, ws: seq<Word>)
    requires c.words >= 2 && Received(c, max, accs, rc, hdr, ws)
    ensures 4 * |ws| <= max && AllWithin(c, accs[0].index, accs)
    ensures forall i :: 0 <= i < |accs| ==> !accs[i].WriteWord? && !accs[i].WriteTail?
    ensures forall i :: 0 <= i < |accs| && accs[i].WriteHead? ==> i == |accs| - 1
  {
  }

  /** What rpmi_shmem_send() may do. */
  ghost predicate Sent(c: Config, m: Message, accs: seq<Access>, rc: Error) {
    && |accs| >= 2 && accs[0].ReadHead? && accs[1].ReadTail?
    && var head, tail := accs[0].index, accs[1].index;
       if Bad(c, head, tail) then rc == Io && |accs| == 2
       else if Next(tail, c.slots) == head then rc == Busy && |accs| == 2
       else if DataLen(m.hdr) > 4 * c.words - 8 then rc == InvalidParam && |accs| == 2
       else rc == Success && accs == accs[..2] + Writes(tail, Words(m)) + [WriteTail(Next(tail, c.slots))]
  }

  /** ... all of it in one slot, and the tail last. */
  lemma SentWithin(c: Config, m: Message, accs: seq<Access>, rc: Error)
    requires c.words >= 2 && WfMessage(m) && Sent(c, m, accs, rc)
    ensures AllWithin(c, accs[1].index, accs)
    ensures forall i :: 0 <= i < |accs| ==> !accs[i].WriteHead?
    ensures forall i :: 0 <= i < |accs| && accs[i].WriteTail? ==> i == |accs| - 1
    ensures rc == Success ==> |accs| == 5 + DataLen(m.hdr) / 4
  {
  }

  class Queue {
    const config: Config
    /** What the n-th access gives, if it is a read. */
    const indexes: nat -> nat
    const words: nat -> Word
    /** The accesses so far. */
    var trace: seq<Access>

    constructor (config: Config, indexes: nat -> nat, words: nat -> Word)
      ensures this.config == config && this.indexes == indexes && this.words == words && trace == [] && Valid()
    {
      this.config, this.indexes, this.words, trace := config, indexes, words, [];
    }

    /** Every read so far gave what it was given. */
    ghost predicate Valid()
      reads this
    {
      forall i :: 0 <= i < |trace| ==> Given(trace[i], i)
    }

    predicate Given(a: Access, i: nat) {
      match a
      case ReadHead(v) => v == indexes(i)
      case ReadTail(v) => v == indexes(i)
      case ReadWord(_, _, w) => w == words(i)
      case _ => true
    }

    method LoadHead() returns (v: nat)
      requires Valid()
      modifies this
      ensures Valid() && trace == old(trace) + [ReadHead(v)]
    {
      v := indexes(|trace|);
      trace := trace + [ReadHead(v)];
    }

    method LoadTail() returns (v: nat)
      requires Valid()
      modifies this
      ensures Valid() && trace == old(trace) + [ReadTail(v)]
    {
      v := indexes(|trace|);
      trace := trace + [ReadTail(v)];
    }

    method LoadWord(slot: nat, k: nat) returns (w: Word)
      requires Valid()
      modifies this
      ensures Valid() && trace == old(trace) + [ReadWord(slot, k, w)]
    {
      w := words(|trace|);
      trace := trace + [ReadWord(slot, k, w)];
    }

    /** The first `n` words behind the header of a slot, into the caller's buffer. */
    method ReadWords(slot: nat, n: nat, buf: array<Word>)
      requires Valid() && n <= buf.Length
      modifies this, buf
      ensures Valid() && trace == old(trace) + Reads(slot, 2, buf[..n]) && buf[n..] == old(buf[n..])
    {
      for i := 0 to n
        invariant Valid() && trace == old(trace) + Reads(slot, 2, buf[..i]) && buf[n..] == old(buf[n..])
      {
        ghost var was, done := trace, buf[..i];
        buf[i] := LoadWord(slot, 2 + i);
        assert buf[..i + 1] == done + [buf[i]];
        assert Reads(slot, 2, buf[..i + 1]) == Reads(slot, 2, done) + [ReadWord(slot, 2 + i, buf[i])];
      }
    }

    /** The words of the message in slot `head`, if it is to be taken. */
    method Take(head: nat, max: nat, buf: array<Word>)
      returns (rc: Error, hdr: Option<Header>, n: nat, ghost w0: Word, ghost w1: Word)
      requires Valid() && head < config.slots && config.words >= 2 && max <= 4 * buf.Length
      modifies this, buf
      ensures Valid() && n <= buf.Length && buf[n..] == old(buf[n..]) && Taken(config, max, w0, w1, rc, hdr, buf[..n])
      ensures trace == old(trace) + TakeAccs(config, head, w0, w1, buf[..n])
    {
      var v0 := LoadWord(head, 0);
      var v1 := LoadWord(head, 1);
      w0, w1, n := v0, v1, 0;
      rc, hdr := BadRange, Some(Unpack(v0, v1));
      if Takes(config, hdr.value, max) {
        rc, n := Success, DataLen(hdr.value) / 4;
        ReadWords(head, n, buf);
      }
      trace := trace + [WriteHead(Next(head, config.slots))];
    }

    /**
     rpmi_shmem_recv(), whatever each read gives: of the caller's buffer it changes the
     beginning that holds the message, if there is one that fits, and nothing else.
     */
    method Recv(max: nat, buf: array<Word>) returns (rc: Error, hdr: Option<Header>)
      requires Valid() && config.words >= 2 && max <= 4 * buf.Length
      modifies this, buf
      ensures Valid() && old(trace) <= trace
      ensures var n := if rc == Success && hdr.Some? then DataLen(hdr.value) / 4 else 0;
              && n <= buf.Length && buf[n..] == old(buf[n..])
              && Received(config, max, trace[|old(trace)|..], rc, hdr, buf[..n])
    {
      ghost var was := trace;
      var head := LoadHead();
      var tail := LoadTail();
      ghost var begin := [ReadHead(head), ReadTail(tail)];
      assert trace[|was|..] == begin;
      if Bad(config, head, tail) {
        return Io, None;
      }
      if head == tail {
        return NoData, None;
      }
      var n;
      ghost var w0, w1;
      rc, hdr, n, w0, w1 := Take(head, max, buf);
      assert trace[|was|..] == begin + TakeAccs(config, head, w0, w1, buf[..n]);
    }

    /** The words of a message, into one slot. */
    method WriteWords(slot: nat, m: Message)
      requires Valid()
      modifies this
      ensures Valid() && trace == old(trace) + Writes(slot, Words(m))
    {
      var ws := Words(m);
      for i := 0 to |ws|
        invariant Valid() && trace == old(trace) + Writes(slot, ws[..i])
      {
        trace := trace + [WriteWord(slot, i, ws[i])];
        assert Writes(slot, ws[..i + 1]) == Writes(slot, ws[..i]) + [WriteWord(slot, i, ws[i])];
      }
      assert ws[..|ws|] == ws;
    }

    /** rpmi_shmem_send(), whatever each read gives. */
    method Send(m: Message) returns (rc: Error)
      requires Valid() && config.words >= 2 && WfMessage(m)
      modifies this
      ensures Valid() && old(trace) <= trace && Sent(config, m, trace[|old(trace)|..], rc)
    {
      ghost var was := trace;
      var head := LoadHead();
      var tail := LoadTail();
      ghost var begin := [ReadHead(head), ReadTail(tail)];
      assert trace[|was|..] == begin;
      if Bad(config, head, tail) {
        return Io;
      }
      if Next(tail, config.slots) == head {
        return Busy;
      }
      if DataLen(m.hdr) > 4 * config.words - 8 {
        return InvalidParam;
      }
      WriteWords(tail, m);
      trace := trace + [WriteTail(Next(tail, config.slots))];
      assert trace[|was|..] == begin + Writes(tail, Words(m)) + [WriteTail(Next(tail, config.slots))];
      return Success;
    }
  }
}
