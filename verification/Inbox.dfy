/** The chat inbox of an investigation: the route that serves it page by page, and the bridge that
    polls it with the cursor of the last reply it received. */
module Inbox {
  import opened Sequences
  import opened SequencedLog

  datatype Body = Body(sender: string, text: string, mode: string)

  type Chat = Entry<Body>

  /** `bridge_poll_inbox`: copies the page the service returns and raises the cursor over it. */
  method PollInbox(queue: seq<Chat>, cursor: nat, limit: nat) returns (messages: seq<Chat>, next: int)
    requires Sorted(queue)
    ensures messages == Page(queue, cursor, limit)
    ensures next == CursorAfter(cursor, messages)
    ensures cursor <= next && forall m :: m in messages ==> cursor < m.number <= next
  {
    var page := Page(queue, cursor, limit);
    SliceSorted(queue, Position(queue, cursor), PageEnd(queue, cursor, limit));
    messages, next := [], cursor;
    for i := 0 to |page|
      invariant messages == page[..i] && next == CursorAfter(cursor, page[..i]) && cursor <= next
      invariant forall m :: m in messages ==> cursor < m.number <= next
    {
      assert page[..i + 1] == page[..i] + [page[i]];
      SortedAt(page, i - 1, i);
      messages := messages + [page[i]];
      if page[i].number > next {
        next := page[i].number;
      }
    }
    assert page[..|page|] == page;
  }

  /** One poll of the bridge: the messages committed before it, with whatever ids their transactions
      drew, the page size, and whether the reply came back. A failed poll keeps the cursor and yields
      nothing. */
  datatype Poll = Poll(sent: seq<Chat>, limit: nat, answered: bool)

  datatype Relay = Relay(relayed: seq<Chat>, cursor: int, queue: seq<Chat>)

  function Reply(queue: seq<Chat>, cursor: int, poll: Poll): seq<Chat> {
    if poll.answered then Page(InsertAll(queue, poll.sent), cursor, poll.limit) else []
  }

  function PollAll(queue: seq<Chat>, cursor: int, polls: seq<Poll>): Relay
    decreases polls
  {
    if polls == [] then Relay([], cursor, queue)
    else
      var page := Reply(queue, cursor, polls[0]);
      var rest := PollAll(InsertAll(queue, polls[0].sent), CursorAfter(cursor, page), polls[1..]);
      rest.(relayed := page + rest.relayed)
  }

  /** No message is committed behind the cursor of a bridge that started at `low`. */
  ghost predicate InTime(queue: seq<Chat>, low: int, cursor: int, polls: seq<Poll>)
    decreases polls
  {
    polls == [] ||
    (&& NoneBehind(queue, polls[0].sent, low, cursor)
     && InTime(InsertAll(queue, polls[0].sent), low, CursorAfter(cursor, Reply(queue, cursor, polls[0])), polls[1..]))
  }

  lemma {:induction false} PollsFollowQueue(queue: seq<Chat>, low: int, cursor: int, polls: seq<Poll>)
    requires Sorted(queue) && low <= cursor && InTime(queue, low, cursor, polls)
    ensures var r := PollAll(queue, cursor, polls);
            && Sorted(r.queue) && cursor <= r.cursor
            && Between(queue, low, cursor) + r.relayed == Between(r.queue, low, r.cursor)
    decreases polls
  {
    var before := Between(queue, low, cursor);
    if polls == [] {
      assert before + [] == before;
    } else {
      var q, page := InsertAll(queue, polls[0].sent), Reply(queue, cursor, polls[0]);
      var next := CursorAfter(cursor, page);
      InsertAllKeeps(queue, polls[0].sent);
      InsertAllKeepsBetween(queue, polls[0].sent, low, cursor);
      if polls[0].answered {
        PageExtends(q, low, cursor, polls[0].limit);
      } else {
        assert before + [] == before;
      }
      PollsFollowQueue(q, low, next, polls[1..]);
      Associative(before, page, PollAll(q, next, polls[1..]).relayed);
    }
  }

  lemma ReplyOrdered(queue: seq<Chat>, cursor: int, poll: Poll)
    requires Sorted(queue)
    ensures var page, q := Reply(queue, cursor, poll), InsertAll(queue, poll.sent);
            && Sorted(q) && Grows(queue, q) && Sorted(page) && cursor <= CursorAfter(cursor, page)
            && forall m :: m in page ==> m in q && cursor < m.number <= CursorAfter(cursor, page)
  {
    var q := InsertAll(queue, poll.sent);
    InsertAllKeeps(queue, poll.sent);
    PageOrdered(q, cursor, poll.limit);
  }

  /** Whatever ids the messages have, none is relayed twice, out of order or invented. */
  lemma {:induction false} RelayedInOrder(queue: seq<Chat>, cursor: int, polls: seq<Poll>)
    requires Sorted(queue)
    ensures var r := PollAll(queue, cursor, polls);
            && Sorted(r.queue) && Grows(queue, r.queue) && cursor <= r.cursor && Sorted(r.relayed)
            && forall m :: m in r.relayed ==> m in r.queue && cursor < m.number <= r.cursor
    decreases polls
  {
    if polls != [] {
      var q, page := InsertAll(queue, polls[0].sent), Reply(queue, cursor, polls[0]);
      var next := CursorAfter(cursor, page);
      ReplyOrdered(queue, cursor, polls[0]);
      RelayedInOrder(q, next, polls[1..]);
      SortedConcat(page, PollAll(q, next, polls[1..]).relayed, next);
    }
  }

  /** A message committed behind the cursor is in the queue, inside what the cursor passed, and is never
      relayed. */
  lemma {:induction false} LateMessageLost(queue: seq<Chat>, low: int, cursor: int, polls: seq<Poll>)
    returns (m: Chat)
    requires Sorted(queue) && low <= cursor && !InTime(queue, low, cursor, polls)
    ensures var r := PollAll(queue, cursor, polls);
            m !in queue && m in r.queue && low < m.number <= r.cursor && m !in r.relayed
    decreases polls
  {
    var q, page := InsertAll(queue, polls[0].sent), Reply(queue, cursor, polls[0]);
    var next := CursorAfter(cursor, page);
    ReplyOrdered(queue, cursor, polls[0]);
    RelayedInOrder(q, next, polls[1..]);
    if !NoneBehind(queue, polls[0].sent, low, cursor) {
      m := LateRow(queue, polls[0].sent, low, cursor);
    } else {
      m := LateMessageLost(q, low, next, polls[1..]);
    }
  }

  /** Over any run of polls, page sizes, lost replies and commit orders, the bridge relays each message
      its cursor passes, once and in order, exactly when no message is committed behind the cursor. */
  lemma RelayedExactlyWhenInTime(queue: seq<Chat>, cursor: int, polls: seq<Poll>)
    requires Sorted(queue)
    ensures var r := PollAll(queue, cursor, polls);
            r.relayed == Between(r.queue, cursor, r.cursor) <==> InTime(queue, cursor, cursor, polls)
  {
    var r := PollAll(queue, cursor, polls);
    if InTime(queue, cursor, cursor, polls) {
      PollsFollowQueue(queue, cursor, cursor, polls);
      assert Between(queue, cursor, cursor) == [];
    } else {
      var m := LateMessageLost(queue, cursor, cursor, polls);
      RelayedInOrder(queue, cursor, polls);
      BetweenMember(r.queue, cursor, r.cursor, m);
    }
  }

  /** Ids become visible in the order they were drawn. */
  ghost predicate Ascending(queue: seq<Chat>, polls: seq<Poll>)
    decreases polls
  {
    Sorted(queue) && (polls == [] || (Sorted(queue + polls[0].sent) && Ascending(queue + polls[0].sent, polls[1..])))
  }

  lemma {:induction false} AppendIsInsert(queue: seq<Chat>, rows: seq<Chat>, low: int, cursor: int)
    requires Sorted(queue + rows) && Sorted(queue) && Reached(queue, low, cursor)
    ensures InsertAll(queue, rows) == queue + rows && NoneBehind(queue, rows, low, cursor)
    decreases rows
  {
    if rows == [] {
      assert queue + rows == queue;
    } else {
      var all := queue + rows;
      assert all[|queue|] == rows[0];
      forall i | 0 <= i < |queue| ensures queue[i].number < rows[0].number {
        SortedAt(all, i, |queue|);
      }
      PositionUnique(queue, rows[0].number, |queue|);
      assert Insert(queue, rows[0]) == queue + [rows[0]];
      assert (queue + [rows[0]]) + rows[1..] == all;
      InsertSorted(queue, rows[0]);
      InsertMembers(queue, rows[0]);
      ReachedGrows(queue, queue + [rows[0]], low, cursor);
      AppendIsInsert(queue + [rows[0]], rows[1..], low, cursor);
    }
  }

  lemma {:induction false} AscendingIsInTime(queue: seq<Chat>, low: int, cursor: int, polls: seq<Poll>)
    requires Ascending(queue, polls) && Reached(queue, low, cursor)
    ensures InTime(queue, low, cursor, polls)
    decreases polls
  {
    if polls != [] {
      var q, page := InsertAll(queue, polls[0].sent), Reply(queue, cursor, polls[0]);
      AppendIsInsert(queue, polls[0].sent, low, cursor);
      InsertAllKeeps(queue, polls[0].sent);
      ReachedGrows(queue, q, low, cursor);
      ReachedAfterPage(q, low, cursor, polls[0].limit);
      AscendingIsInTime(q, low, CursorAfter(cursor, page), polls[1..]);
    }
  }

  /** In particular, when ids become visible in ascending order, the bridge relays an initial part of the
      queue past its first cursor, each message once and in order. */
  lemma RelayedOnceInOrder(queue: seq<Chat>, cursor: int, polls: seq<Poll>)
    requires Ascending(queue, polls)
    ensures var r := PollAll(queue, cursor, polls);
            r.relayed == Between(r.queue, cursor, r.cursor) && r.relayed <= After(r.queue, cursor) && Sorted(r.relayed)
  {
    AscendingIsInTime(queue, cursor, cursor, polls);
    RelayedExactlyWhenInTime(queue, cursor, polls);
    RelayedInOrder(queue, cursor, polls);
    BetweenIsPrefix(PollAll(queue, cursor, polls).queue, cursor, PollAll(queue, cursor, polls).cursor);
  }

  /** An answered poll with a positive page size moves the cursor exactly when a message waits. */
  lemma PollAdvances(queue: seq<Chat>, cursor: int, limit: nat)
    requires Sorted(queue) && 1 <= limit
    ensures cursor < CursorAfter(cursor, Page(queue, cursor, limit)) <==> exists m :: m in queue && m.number > cursor
  {
    var k := Position(queue, cursor);
    if k < |queue| {
      assert queue[k] in queue;
      assert queue[PageEnd(queue, cursor, limit) - 1].number > cursor;
    } else {
      assert forall m :: m in queue ==> m.number <= cursor by {
        forall m | m in queue ensures m.number <= cursor {
          var i :| 0 <= i < |queue| && queue[i] == m;
          SortedAt(queue, i, k - 1);
        }
      }
    }
  }
}
