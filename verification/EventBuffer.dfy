/**
 Notification events: handed over as whole events (rpmi.c), buffered back to back, and
 read out in order (mpxy_rpmi.c). A word is a number below 2^32; sizes are in bytes, as in
 the source.
 */
module EventBuffer {
  const U32 := 0x1_0000_0000

  type Event = seq<nat>

  /** The size of the event that begins with word `hdr`, its header included. */
  function SizeOf(hdr: nat): nat {
    4 + hdr % 0x1_0000
  }

  /** A header has the event's id in its upper half and the number of data bytes in its lower. */
  lemma HeaderSays(id: nat, bytes: nat)
    requires bytes < 0x1_0000
    ensures SizeOf(id * 0x1_0000 + bytes) == 4 + bytes
  {
  }

  predicate IsEvent(e: Event) {
    |e| > 0 && SizeOf(e[0]) == 4 * |e|
  }

  ghost predicate AllEvents(evs: seq<Event>) {
    forall i :: 0 <= i < |evs| ==> IsEvent(evs[i])
  }

  function Flat(evs: seq<Event>): seq<nat> {
    if evs == [] then [] else evs[0] + Flat(evs[1..])
  }

  lemma {:induction false} FlatConcat(a: seq<Event>, b: seq<Event>)
    ensures Flat(a + b) == Flat(a) + Flat(b)
    decreases |a|
  {
    if a == [] {
      assert a + b == b;
    } else {
      FlatConcat(a[1..], b);
      assert (a + b)[1..] == a[1..] + b;
    }
  }

  lemma {:induction false} FlatMore(evs: seq<Event>, e: Event)
    ensures Flat(evs + [e]) == Flat(evs) + e
  {
    FlatConcat(evs, [e]);
    assert Flat([e]) == e + Flat([e][1..]);
  }

  lemma {:induction false} FlatUpTo(evs: seq<Event>, k: nat)
    requires k < |evs|
    ensures Flat(evs[..k + 1]) == Flat(evs[..k]) + evs[k]
  {
    FlatMore(evs[..k], evs[k]);
    assert evs[..k + 1] == evs[..k] + [evs[k]];
  }

  lemma {:induction false} FlatSplit(evs: seq<Event>, k: nat)
    requires k <= |evs|
    ensures Flat(evs) == Flat(evs[..k]) + Flat(evs[k..])
  {
    FlatConcat(evs[..k], evs[k..]);
    assert evs[..k] + evs[k..] == evs;
  }

  /** The k-th event is where the ones before it end. */
  lemma {:induction false} FlatAt(evs: seq<Event>, k: nat)
    requires k < |evs|
    ensures |Flat(evs[..k])| + |evs[k]| <= |Flat(evs)|
    ensures Flat(evs)[|Flat(evs[..k])|..|Flat(evs[..k])| + |evs[k]|] == evs[k]
    ensures Flat(evs[..k + 1]) == Flat(evs[..k]) + evs[k]
  {
    FlatUpTo(evs, k);
    FlatSplit(evs, k + 1);
  }

  lemma {:induction false} FlatEmpty(evs: seq<Event>)
    requires AllEvents(evs)
    ensures Flat(evs) == [] <==> evs == []
  {
    if evs != [] {
      FlatAt(evs, 0);
    }
  }

  /** The words say what the events are. */
  lemma {:induction false} FlatParses(a: seq<Event>, b: seq<Event>)
    requires AllEvents(a) && AllEvents(b) && Flat(a) == Flat(b)
    ensures a == b
    decreases |a|
  {
    FlatEmpty(a);
    FlatEmpty(b);
    if a != [] {
      FlatAt(a, 0);
      FlatAt(b, 0);
      assert a[..0] == [] && b[..0] == [];
      assert a[0][0] == Flat(a)[0..|a[0]|][0] == Flat(a)[0];
      assert b[0][0] == Flat(b)[0..|b[0]|][0] == Flat(b)[0];
      assert a[0] == b[0];
      FlatParses(a[1..], b[1..]);
      assert a == [a[0]] + a[1..] && b == [b[0]] + b[1..];
    }
  }

  /** deliver_events(): the whole events at the beginning of `datalen` bytes. */
  method WholeEvents(words: seq<nat>, datalen: nat) returns (len: nat, ghost evs: seq<Event>)
    requires datalen <= 4 * |words|
    ensures len % 4 == 0 && len <= datalen && AllEvents(evs) && words[..len / 4] == Flat(evs)
    ensures len + 4 <= datalen ==> SizeOf(words[len / 4]) % 4 != 0 || len + SizeOf(words[len / 4]) > datalen
  {
    len, evs := 0, [];
    while len + 4 <= datalen
      invariant len % 4 == 0 && len <= datalen && AllEvents(evs) && words[..len / 4] == Flat(evs)
    {
      var next := len + SizeOf(words[len / 4]);
      if next % 4 != 0 || next > datalen {
        break;
      }
      ghost var e := words[len / 4..next / 4];
      FlatMore(evs, e);
      assert words[..next / 4] == words[..len / 4] + e;
      evs := evs + [e];
      len := next;
    }
  }

  /** The events that were not lost, in order. */
  function Kept(evs: seq<Event>, kept: seq<bool>): seq<Event>
    requires |kept| == |evs|
  {
    if evs == [] then []
    else
      var n := |evs| - 1;
      Kept(evs[..n], kept[..n]) + if kept[n] then [evs[n]] else []
  }

  lemma {:induction false} KeptMore(evs: seq<Event>, kept: seq<bool>, e: Event, k: bool)
    requires |kept| == |evs|
    ensures Kept(evs + [e], kept + [k]) == Kept(evs, kept) + if k then [e] else []
  {
    assert (evs + [e])[..|evs|] == evs && (kept + [k])[..|kept|] == kept;
  }

  /** What has happened to a buffer: an account, not part of it. */
  datatype Ledger = Ledger(received: seq<Event>, kept: seq<bool>, returned: seq<Event>, reported: nat, lost: nat)

  /**
   All that came is kept or lost; what is kept has been returned or is held, in the order
   it came; and what is lost has been reported or is in the counter.
   */
  ghost predicate Accounts(l: Ledger, held: seq<Event>, lost: nat) {
    && |l.kept| == |l.received|
    && Kept(l.received, l.kept) == l.returned + held
    && |l.received| == |l.returned| + |held| + l.reported + l.lost
    && lost == l.lost % U32
  }

  ghost function Came(l: Ledger, e: Event, fits: bool): Ledger {
    l.(received := l.received + [e], kept := l.kept + [fits], lost := if fits then l.lost else l.lost + 1)
  }

  ghost function Went(l: Ledger, evs: seq<Event>): Ledger {
    l.(returned := l.returned + evs, reported := l.reported + l.lost, lost := 0)
  }

  lemma {:induction false} CameAccounts(l: Ledger, held: seq<Event>, lost: nat, e: Event, fits: bool)
    requires Accounts(l, held, lost)
    ensures Accounts(Came(l, e, fits), if fits then held + [e] else held, if fits then lost else (lost + 1) % U32)
  {
    KeptMore(l.received, l.kept, e, fits);
    assert l.returned + held + [e] == l.returned + (held + [e]);
    assert l.returned + held + [] == l.returned + held;
  }

  lemma {:induction false} WentAccounts(l: Ledger, held: seq<Event>, lost: nat, n: nat)
    requires Accounts(l, held, lost) && n <= |held|
    ensures Accounts(Went(l, held[..n]), held[n..], 0)
  {
    assert held == held[..n] + held[n..];
    assert l.returned + held == l.returned + held[..n] + held[n..];
  }

  /** The number in the counter is the number of lost events just when that has 32 bits. */
  lemma LossIsExact(l: Ledger, held: seq<Event>, lost: nat)
    requires Accounts(l, held, lost)
    ensures lost == l.lost <==> l.lost < U32
  {
  }

  ghost function AllLost(e: Event, n: nat): Ledger {
    Ledger(seq(n, i => e), seq(n, i => false), [], 0, n)
  }

  lemma {:induction false} AllLostAccounts(e: Event, n: nat)
    ensures Accounts(AllLost(e, n), [], n % U32)
  {
    if n > 0 {
      AllLostAccounts(e, n - 1);
      CameAccounts(AllLost(e, n - 1), [], (n - 1) % U32, e, false);
      assert Came(AllLost(e, n - 1), e, false) == AllLost(e, n);
    }
  }

  /** With 2^32 of them it says none. */
  lemma LossWraps(e: Event)
    ensures var l := AllLost(e, U32); Accounts(l, [], 0) && l.lost == U32 != 0
  {
    AllLostAccounts(e, U32);
  }

  /** Which of the events that come to a buffer of `cap` bytes, `used` of them taken, find room. */
  function Room(used: nat, cap: nat, evs: seq<Event>): (kept: seq<bool>)
    ensures |kept| == |evs|
    decreases |evs|
  {
    if evs == [] then []
    else
      var fits := used + 4 * |evs[0]| <= cap;
      [fits] + Room(if fits then used + 4 * |evs[0]| else used, cap, evs[1..])
  }

  /** Of `len` bytes, those from `off` on are the events `rest`. */
  ghost predicate Ahead(words: seq<nat>, off: nat, len: nat, rest: seq<Event>) {
    && off % 4 == 0 && off <= len <= 4 * |words| && len % 4 == 0
    && AllEvents(rest) && words[off / 4..len / 4] == Flat(rest)
  }

  /** What is ahead begins with the first event, all of it. */
  lemma {:induction false} FirstEvent(words: seq<nat>, off: nat, len: nat, rest: seq<Event>)
    requires Ahead(words, off, len, rest) && off < len
    ensures rest != [] && IsEvent(rest[0]) && off / 4 + |rest[0]| <= |words|
    ensures words[off / 4..off / 4 + |rest[0]|] == rest[0] && Ahead(words, off + 4 * |rest[0]|, len, rest[1..])
  {
    var ws, n := words[off / 4..len / 4], |rest[0]|;
    assert ws[..n] == rest[0] && ws[n..] == Flat(rest[1..]);
    assert words[off / 4..off / 4 + n] == ws[..n] && words[off / 4 + n..len / 4] == ws[n..];
  }

  /**
   Of the events `evs`, all but `rest` have come to a buffer that had the account `was` and
   `usedThen` bytes taken.
   */
  ghost predicate Sunk(was: Ledger, usedThen: nat, cap: nat, evs: seq<Event>, rest: seq<Event>, l: Ledger, used: nat) {
    && l.received + rest == was.received + evs
    && l.kept + Room(used, cap, rest) == was.kept + Room(usedThen, cap, evs)
    && l.returned == was.returned && l.reported == was.reported
  }

  lemma {:induction false} SunkNext(was: Ledger, usedThen: nat, cap: nat, evs: seq<Event>, rest: seq<Event>,
                                    l: Ledger, used: nat)
    requires rest != [] && Sunk(was, usedThen, cap, evs, rest, l, used)
    ensures var fits := used + 4 * |rest[0]| <= cap;
            var now := if fits then used + 4 * |rest[0]| else used;
            Sunk(was, usedThen, cap, evs, rest[1..], Came(l, rest[0], fits), now)
  {
  }

  class Buffer {
    const events: array<nat>
    var used: nat
    var count: nat
    var lost: nat
    ghost var held: seq<Event>
    /** `lost`: since the last read; `reported`: before it. */
    ghost var ledger: Ledger

    /** The bytes used are `count` whole events. */
    ghost predicate Parses()
      reads this, events
    {
      && used == 4 * |Flat(held)| && |Flat(held)| <= events.Length && events[..|Flat(held)|] == Flat(held)
      && AllEvents(held) && count == |held|
    }

    ghost predicate Valid()
      reads this, events
    {
      Parses() && Accounts(ledger, held, lost)
    }

    constructor (words: nat)
      ensures Valid() && held == [] && ledger == Ledger([], [], [], 0, 0) && events.Length == words && fresh(events)
    {
      events := new nat[words];
      used, count, lost, held, ledger := 0, 0, 0, [], Ledger([], [], [], 0, 0);
    }

    /** memcpy() into the buffer. */
    method Copy(at: nat, e: seq<nat>)
      requires at + |e| <= events.Length
      modifies events
      ensures events[..at + |e|] == old(events[..at]) + e
    {
      for i := 0 to |e|
        invariant events[..at] == old(events[..at])
        invariant events[at..at + i] == e[..i]
      {
        events[at + i] := e[i];
      }
    }

    method Append(e: Event)
      requires Parses() && IsEvent(e) && used + 4 * |e| <= 4 * events.Length
      modifies `used, `count, `held, events
      ensures Parses() && held == old(held) + [e] && used == old(used) + 4 * |e|
    {
      FlatMore(held, e);
      Copy(used / 4, e);
      used, count, held := used + 4 * |e|, count + 1, held + [e];
    }

    /** One event of a notification, copied behind the others or lost. */
    method Put(e: Event) returns (fits: bool)
      requires Valid() && IsEvent(e)
      modifies this, events
      ensures Valid()
      ensures fits <==> old(used) + 4 * |e| <= 4 * events.Length
      ensures used == if fits then old(used) + 4 * |e| else old(used)
      ensures held == if fits then old(held) + [e] else old(held)
      ensures ledger == Came(old(ledger), e, fits)
    {
      fits := used + 4 * |e| <= 4 * events.Length;
      CameAccounts(ledger, held, lost, e, fits);
      if fits {
        Append(e);
      } else {
        lost := (lost + 1) % U32;
      }
      ledger := Came(ledger, e, fits);
    }

    /** The next event of a notification, in the words that hold it. */
    method PutNext(words: seq<nat>, at: nat, ghost e: Event) returns (size: nat)
      requires Valid() && IsEvent(e) && at + |e| <= |words| && words[at..at + |e|] == e
      modifies this, events
      ensures Valid() && size == 4 * |e| && old(held) <= held
      ensures var fits := old(used) + size <= 4 * events.Length;
              ledger == Came(old(ledger), e, fits) && used == if fits then old(used) + size else old(used)
    {
      assert words[at] == words[at..at + |e|][0];
      size := SizeOf(words[at]);
      var fits := Put(words[at..at + size / 4]);
    }

    /** mpxy_rpmi_event_sink(): the events of a notification, in order; those without room are lost. */
    method Sink(words: seq<nat>, len: nat, ghost evs: seq<Event>)
      requires Valid() && AllEvents(evs) && len == 4 * |Flat(evs)| && Flat(evs) <= words
      modifies this, events
      ensures Valid()
      ensures ledger.received == old(ledger.received) + evs
      ensures ledger.kept == old(ledger.kept) + Room(old(used), 4 * events.Length, evs)
      ensures ledger.returned == old(ledger.returned) && ledger.reported == old(ledger.reported)
      ensures old(held) <= held
    {
      var off := 0;
      ghost var rest, was, usedThen := evs, ledger, used;
      while off < len
        invariant Valid() && Ahead(words, off, len, rest)
        invariant Sunk(was, usedThen, 4 * events.Length, evs, rest, ledger, used) && old(held) <= held
        decreases len - off
      {
        FirstEvent(words, off, len, rest);
        SunkNext(was, usedThen, 4 * events.Length, evs, rest, ledger, used);
        var size := PutNext(words, off / 4, rest[0]);
        off := off + size;
        rest := rest[1..];
      }
      FlatEmpty(rest);
    }

    /** How many of the first events fit into `max` bytes, and how long they are. */
    method Fitting(max: nat) returns (n: nat, bytes: nat)
      requires Parses()
      ensures n <= count && bytes == 4 * |Flat(held[..n])| <= used && bytes <= max
      ensures n < count ==> bytes + 4 * |held[n]| > max
    {
      n, bytes := 0, 0;
      assert held[..0] == [];
      while n < count
        invariant n <= count && bytes == 4 * |Flat(held[..n])| <= used && bytes <= max
      {
        FlatAt(held, n);
        assert events[bytes / 4] == Flat(held)[bytes / 4..bytes / 4 + |held[n]|][0] == held[n][0];
        var size := SizeOf(events[bytes / 4]);
        if bytes + size > max {
          break;
        }
        bytes, n := bytes + size, n + 1;
      }
    }

    /** memmove(): what is behind `bytes` comes to the front. */
    method MoveDown(from: nat, n: nat)
      requires from + n <= events.Length
      modifies events
      ensures events[..n] == old(events[from..from + n])
    {
      for i := 0 to n
        invariant forall j :: 0 <= j < i ==> events[j] == old(events[from + j])
        invariant forall j :: i <= j < events.Length ==> events[j] == old(events[j])
      {
        events[i] := events[from + i];
      }
    }

    /**
     mpxy_rpmi_get_events(): the oldest events, as many as fit, whole and in order; and how
     many were lost since the last time.
     */
    method GetEvents(max: nat) returns (buf: seq<nat>, returned: nat, remaining: nat, missed: nat)
      requires Valid()
      modifies this, events
      ensures Valid()
      ensures returned <= |old(held)| && buf == Flat(old(held)[..returned]) && 4 * |buf| <= max
      ensures held == old(held)[returned..] && remaining == |held|
      ensures returned < |old(held)| ==> 4 * |buf| + 4 * |old(held)[returned]| > max
      ensures missed == old(ledger).lost % U32 && ledger == Went(old(ledger), old(held)[..returned])
    {
      var n, bytes := Fitting(max);
      ghost var was := held;
      buf := events[..bytes / 4];
      Rest(n, bytes);
      WentAccounts(ledger, was, lost, n);
      returned, remaining, missed := n, count, lost;
      ledger := Went(ledger, was[..n]);
      lost := 0;
    }

    /** The first `n` events go. */
    method Rest(n: nat, bytes: nat)
      requires Parses() && n <= count && bytes == 4 * |Flat(held[..n])| <= used
      modifies `used, `count, `held, events
      ensures Parses() && held == old(held)[n..] && count == |held|
      ensures old(events[..bytes / 4]) == Flat(old(held)[..n])
    {
      FlatSplit(held, n);
      MoveDown(bytes / 4, (used - bytes) / 4);
      used, count, held := used - bytes, count - n, held[n..];
    }
  }
}
