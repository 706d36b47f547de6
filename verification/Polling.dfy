/**
 What the poll loop of `next()` finds, as a function of the stream and of the steps that the
 background tasks take between its operations; and when it finds a record, the end, or neither.
*/
module Polling {
  import opened Streaming

  /** What the tasks do before each of the four operations of one round of the poll loop. */
  datatype Turn = Turn(poll: seq<TaskAction>, active: seq<TaskAction>, count: seq<TaskAction>, last: seq<TaskAction>)

  /** The tasks take those of the given steps that are enabled, in order. */
  function After(s: Stream, steps: seq<TaskAction>): Stream
    decreases |steps|
  {
    if steps == [] then s
    else After(if TaskEnabled(s, steps[0]) then TaskFire(s, steps[0]) else s, steps[1..])
  }

  /** A task's step changes nothing of the scan's frame; the end and the closed flag stay. */
  predicate Framed(s: Stream, s': Stream) {
    && s'.sizes == s.sizes && s'.capacity == s.capacity && s'.quota == s.quota && s'.handle == s.handle
    && (Ended(s) ==> Ended(s')) && (!s.active ==> !s'.active)
  }

  lemma TaskFrame(s: Stream, a: TaskAction)
    requires TaskEnabled(s, a)
    ensures Framed(s, TaskFire(s, a))
  {
    match a
    case Spawn(r, parts) => assert !Ended(s);
    case Lock(r, p) => assert r in s.readers;
    case Push(r) => assert r in s.readers;
    case Digest(r) => assert r in s.readers;
    case PushError(r, _) => assert r in s.readers;
    case Exit(r) => assert r in s.readers;
    case _ =>
  }

  lemma {:induction false} AfterFrame(s: Stream, steps: seq<TaskAction>)
    ensures Framed(s, After(s, steps))
    decreases |steps|
  {
    if steps == [] {
    } else {
      var s' := if TaskEnabled(s, steps[0]) then TaskFire(s, steps[0]) else s;
      if TaskEnabled(s, steps[0]) {
        TaskFrame(s, steps[0]);
      }
      AfterFrame(s', steps[1..]);
    }
  }

  datatype Finding = Got(item: Item, s: Stream) | AtEnd(s: Stream) | NotYet(s: Stream)

  function Front(s: Stream): Finding
    requires s.queue != []
  {
    Got(s.queue[0], s.(queue := s.queue[1..]))
  }

  /**
   One round: a queued item; or, when the queue was found empty and then the stream inactive and
   all its tasks gone, a last look; or neither.
  */
  function Round(s: Stream, turn: Turn): Finding {
    var polled := After(s, turn.poll);
    if polled.queue != [] then Front(polled) else EndRound(polled, turn)
  }

  /** The rest of a round that found the queue empty. */
  function EndRound(s: Stream, turn: Turn): Finding {
    var looked := After(s, turn.active);
    if looked.active then NotYet(looked)
    else
      var counted := After(looked, turn.count);
      if !Ended(counted) then NotYet(counted)
      else
        var last := After(counted, turn.last);
        if last.queue != [] then Front(last) else AtEnd(last)
  }

  /** The first round that finds something ends the loop. */
  function Rounds(s: Stream, turns: seq<Turn>): Finding
    decreases |turns|
  {
    if turns == [] then NotYet(s)
    else
      match Round(s, turns[0])
      case NotYet(s') => Rounds(s', turns[1..])
      case finding => finding
  }

  /** The loop after one more round. */
  lemma {:induction false} RoundsSnoc(s: Stream, turns: seq<Turn>, n: nat)
    requires n < |turns| && Rounds(s, turns[..n]).NotYet?
    ensures Rounds(s, turns[..n + 1]) == Round(Rounds(s, turns[..n]).s, turns[n])
    ensures !Rounds(s, turns[..n + 1]).NotYet? ==> Rounds(s, turns) == Rounds(s, turns[..n + 1])
    decreases n
  {
    if n == 0 {
      assert turns[..0] == [] && turns[..1][1..] == [] && turns[..1][0] == turns[0];
    } else {
      var s' := Round(s, turns[0]).s;
      assert turns[..n][1..] == turns[1..][..n - 1] && turns[..n + 1][1..] == turns[1..][..n];
      RoundsSnoc(s', turns[1..], n - 1);
    }
  }

  // ---------------------------------------------------------------------------------------
  //  What that means for the caller
  // ---------------------------------------------------------------------------------------

  /** No task is left that could do anything. */
  predicate AllGone(s: Stream) {
    Ended(s) && !s.drain
  }

  lemma {:induction false} NothingHappens(s: Stream, steps: seq<TaskAction>)
    requires AllGone(s)
    ensures After(s, steps) == s
    decreases |steps|
  {
    if steps == [] {
    } else {
      if TaskEnabled(s, steps[0]) {
        EndedTask(s, steps[0]);
      }
      NothingHappens(s, steps[1..]);
    }
  }

  /** A queued item is returned at once, and only the queue changes. */
  lemma QueuedIsReturned(s: Stream, turns: seq<Turn>)
    requires turns != [] && After(s, turns[0].poll).queue != []
    ensures var polled := After(s, turns[0].poll);
      Rounds(s, turns) == Got(polled.queue[0], polled.(queue := polled.queue[1..]))
  {}

  /** When all tasks are gone the next round decides: the first queued item, or the end. */
  lemma GoneIsDecided(s: Stream, turns: seq<Turn>)
    requires turns != [] && AllGone(s) && !s.active
    ensures Rounds(s, turns) == if s.queue != [] then Got(s.queue[0], s.(queue := s.queue[1..])) else AtEnd(s)
  {
    NothingHappens(s, turns[0].poll);
    NothingHappens(s, turns[0].active);
    NothingHappens(s, turns[0].count);
    NothingHappens(s, turns[0].last);
  }

  /** The end is only found where it is: no task that could push, no item left, and the stream closed. */
  lemma {:induction false} EndIsTheEnd(s: Stream, turns: seq<Turn>)
    requires Rounds(s, turns).AtEnd?
    ensures var s' := Rounds(s, turns).s; Ended(s') && s'.queue == [] && !s'.active
    decreases |turns|
  {
    if Round(s, turns[0]).AtEnd? {
      RoundEnds(s, turns[0]);
    } else {
      EndIsTheEnd(Round(s, turns[0]).s, turns[1..]);
    }
  }

  lemma RoundEnds(s: Stream, turn: Turn)
    requires Round(s, turn).AtEnd?
    ensures var s' := Round(s, turn).s; Ended(s') && s'.queue == [] && !s'.active
  {
    var looked := After(After(s, turn.poll), turn.active);
    var counted := After(looked, turn.count);
    AfterFrame(looked, turn.count);
    AfterFrame(counted, turn.last);
  }
}
