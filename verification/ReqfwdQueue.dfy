/**
 The queue of forwarded messages (reqfwd.c): a list through messages that live on the
 stacks of their producers, with a pointer to the last link. Each method is what the
 source does under the queue's lock.
 */
module ReqfwdQueue {
  datatype Progress = Queued | Retrieved | Completed | Failed

  datatype Result<+T> = Ok(value: T) | NoData | InvalidParam | BadRange

  class Message {
    var next: Message?
    var state: Progress
    var rsp: seq<int>
    var rspLen: nat
    const msg: seq<int>
    const rspMax: nat

    constructor (msg: seq<int>, rspMax: nat)
      ensures this.msg == msg && this.rspMax == rspMax && state == Queued && next == null
    {
      this.msg, this.rspMax := msg, rspMax;
      next, state, rsp, rspLen := null, Queued, [], 0;
    }

    /** The response, if there is room for it, and then the word that it is there. */
    method Answer(answer: seq<int>) returns (fits: bool)
      modifies `state, `rsp, `rspLen
      ensures fits == (|answer| <= rspMax)
      ensures state == if fits then Completed else Failed
      ensures rspLen == if fits then |answer| else 0
      ensures rsp == if fits then answer else old(rsp)
    {
      fits := |answer| <= rspMax;
      if fits {
        rsp := answer;
      }
      rspLen := if fits then |answer| else 0;
      state := if fits then Completed else Failed;
    }
  }

  ghost predicate Distinct(ms: seq<Message>) {
    forall i, j :: 0 <= i < j < |ms| ==> ms[i] != ms[j]
  }

  ghost function Without(ms: seq<Message>, i: nat): (r: seq<Message>)
    requires i < |ms|
    ensures |r| == |ms| - 1 && forall k :: 0 <= k < |r| ==> r[k] == ms[if k < i then k else k + 1]
  {
    ms[..i] + ms[i + 1..]
  }

  lemma WithoutDistinct(ms: seq<Message>, i: nat)
    requires i < |ms| && Distinct(ms)
    ensures Distinct(Without(ms, i)) && ms[i] !in Without(ms, i)
  {
  }

  class Queue {
    var head: Message?
    /** The message whose `next` is the last link; null: `head` is. */
    var tail: Message?
    var count: nat
    ghost var contents: seq<Message>

    /** What the link of the i-th message holds. */
    ghost function After(i: int): Message?
      reads this
    {
      if 0 <= i + 1 < |contents| then contents[i + 1] else null
    }

    ghost predicate Valid()
      reads this, contents
    {
      && count == |contents|
      && head == After(-1)
      && tail == (if contents == [] then null else contents[|contents| - 1])
      && (forall i :: 0 <= i < |contents| ==> contents[i].next == After(i))
      && Distinct(contents)
    }

    constructor ()
      ensures Valid() && contents == []
    {
      head, tail, count, contents := null, null, 0, [];
    }

    /** reqfwd_send(), the section under the lock; `first`: the servers are to be told. */
    method Append(m: Message) returns (first: bool)
      requires Valid() && m !in contents && m.next == null
      modifies this, contents`next
      ensures Valid() && contents == old(contents) + [m]
      ensures first == (old(contents) == [])
    {
      first := count == 0;
      count := count + 1;
      if tail == null {
        head := m;
      } else {
        tail.next := m;
      }
      tail := m;
      contents := contents + [m];
    }

    /** The search of unlink(): the link before `m` is that of `prev`, or `head`. */
    method Find(m: Message) returns (prev: Message?, found: bool, ghost i: nat)
      requires Valid()
      ensures found ==> i < |contents| && contents[i] == m
      ensures found ==> prev == if i == 0 then null else contents[i - 1]
      ensures !found ==> m !in contents
    {
      var at := head;
      prev, i := null, 0;
      while at != null && at != m
        invariant 0 <= i <= |contents|
        invariant prev == (if i == 0 then null else contents[i - 1])
        invariant at == After(i - 1)
        invariant m !in contents[..i]
        decreases |contents| - i
      {
        prev, at := at, at.next;
        i := i + 1;
      }
      found := at != null;
    }

    /** unlink(): wherever it is; a message that is not there is left alone. */
    method Unlink(m: Message)
      requires Valid()
      modifies this, contents`next
      ensures Valid()
      ensures m !in old(contents) ==> contents == old(contents)
      ensures forall k :: 0 <= k < |old(contents)| && old(contents)[k] == m ==> contents == Without(old(contents), k)
    {
      var prev, found;
      ghost var i;
      prev, found, i := Find(m);
      if found {
        Cut(prev, m, i);
      }
    }

    /** The link before `m` skips it. */
    method Cut(prev: Message?, m: Message, ghost i: nat)
      requires Valid() && i < |contents| && contents[i] == m && prev == if i == 0 then null else contents[i - 1]
      modifies this, contents`next
      ensures Valid() && contents == Without(old(contents), i)
    {
      ghost var was, now := contents, Without(contents, i);
      WithoutDistinct(was, i);
      Skip(prev, m, i);
      if tail == m {
        tail := prev;
      }
      count := count - 1;
      contents := now;
      forall k | 0 <= k < |now| ensures now[k].next == After(k) {
        if k + 1 < i {
          assert now[k] == was[k] && now[k + 1] == was[k + 1];
        } else if k + 1 == i {
          assert now[k] == was[k] && (k + 1 < |now| ==> now[k + 1] == was[k + 2]);
        } else {
          assert now[k] == was[k + 1] && (k + 1 < |now| ==> now[k + 1] == was[k + 2]);
        }
      }
    }

    /** The link before `m` is now the one behind it; the others stay. */
    method Skip(prev: Message?, m: Message, ghost i: nat)
      requires Valid() && i < |contents| && contents[i] == m && prev == if i == 0 then null else contents[i - 1]
      modifies `head, contents`next
      ensures head == if i == 0 then old(After(i)) else old(head)
      ensures forall k :: 0 <= k < |contents| ==>
                 contents[k].next == if k == i - 1 then old(After(i)) else old(After(k))
    {
      assert m.next == After(i);
      if prev == null {
        head := m.next;
      } else {
        prev.next := m.next;
      }
    }

    /** reqfwd_retrieve(): a part of the first message, and how much is left of it. */
    method Retrieve(start: nat, max: nat) returns (r: Result<(seq<int>, nat)>)
      requires Valid()
      modifies contents`state
      ensures Valid()
      ensures r.NoData? <==> contents == []
      ensures r.InvalidParam? <==> contents != [] && start >= |contents[0].msg|
      ensures !r.BadRange?
      ensures r.Ok? ==>
                var (part, left) := r.value;
                && contents[0].state == Retrieved
                && |part| + left == |contents[0].msg| - start && |part| <= max && (left > 0 ==> |part| == max)
                && part == contents[0].msg[start..start + |part|]
      ensures forall i :: 0 <= i < |contents| && (i > 0 || !r.Ok?) ==> contents[i].state == old(contents[i].state)
    {
      if head == null {
        return NoData;
      }
      if start >= |head.msg| {
        return InvalidParam;
      }
      var n := if |head.msg| - start < max then |head.msg| - start else max;
      head.state := Retrieved;
      return Ok((head.msg[start..start + n], |head.msg| - start - n));
    }

    /** The first message goes. */
    method TakeFirst() returns (m: Message)
      requires Valid() && head != null
      modifies this, contents`next
      ensures Valid() && m == old(contents[0]) && contents == old(contents)[1..] && m !in contents
    {
      m := head;
      ghost var was := contents;
      WithoutDistinct(was, 0);
      Unlink(m);
      assert Without(was, 0) == was[1..];
    }

    /** reqfwd_complete(): the first message, if it was retrieved, is answered and gone. */
    method Complete(rsp: seq<int>) returns (r: Result<nat>, left: nat)
      requires Valid()
      modifies this, contents`next, contents`state, contents`rsp, contents`rspLen
      ensures Valid() && left == |contents|
      ensures !r.InvalidParam?
      ensures r.NoData? <==> old(contents == [] || contents[0].state != Retrieved)
      ensures r.NoData? ==> contents == old(contents)
      ensures forall k :: (if r.NoData? then 0 else 1) <= k < |old(contents)| ==>
                var m := old(contents)[k];
                m.state == old(m.state) && m.rsp == old(m.rsp) && m.rspLen == old(m.rspLen)
      ensures !r.NoData? ==>
                var m := old(contents[0]);
                && contents == old(contents)[1..] && m !in contents
                && (r.Ok? <==> |rsp| <= m.rspMax)
                && m.state == (if r.Ok? then Completed else Failed)
                && m.rspLen == (if r.Ok? then |rsp| else 0)
                && m.rsp == (if r.Ok? then rsp else old(contents[0].rsp))
    {
      if head == null || head.state != Retrieved {
        return NoData, count;
      }
      var m := TakeFirst();
      var fits := m.Answer(rsp);
      return if fits then Ok(|rsp|) else BadRange, count;
    }
  }
}
