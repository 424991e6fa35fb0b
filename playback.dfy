/**
 * The inbound playback scheduler shared by the voice page and the live
 * document chat. Each decoded fragment starts at the later of the playback
 * cursor and the output clock, and the cursor then moves to that fragment's
 * end. Barge-in and stop reset the cursor to 0 and stop every live source.
 *
 * The specification is a function of the fragments scheduled since the last
 * reset (`Starts`, `Cursor`); the class `Player` holds the cursor and the set
 * of live sources that the components keep in refs, and its methods are
 * proved against that specification.
 */
module Playback {
  import opened Wrappers

  /** A point or a span on the output audio clock, in seconds. */
  type Time = r: real | 0.0 <= r

  /** Identity of one scheduled playback source; every fragment gets a new one. */
  type SourceId = nat

  /** One inbound fragment: the output clock when it was scheduled, and its decoded duration. */
  datatype Fragment = Fragment(clock: Time, duration: Time)

  /**
   * The inline audio of one inbound message: absent or empty, decoded to a
   * buffer of the given duration, or rejected by the decoder. `NoParts` is a
   * model turn without a `parts` list, where reading the first part throws
   * before any audio is looked at.
   */
  datatype InlineAudio = NoAudio | Decoded(duration: Time) | Undecodable | NoParts

  /** The `source.start(at)` call made for one scheduled fragment. */
  datatype Playing = Playing(source: SourceId, at: Time, duration: Time)

  /** The scheduling rule: a fragment starts at the later of the cursor and the clock. */
  function StartAt(cursor: Time, clock: Time): (start: Time)
    ensures cursor <= start && clock <= start
    ensures start == cursor || start == clock
  {
    if cursor < clock then clock else cursor
  }

  /** The cursor after scheduling `history`, starting from a reset cursor of 0. */
  function Cursor(history: seq<Fragment>): (cursor: Time)
    decreases |history|, 1
  {
    if history == [] then 0.0 else LastStart(history) + history[|history| - 1].duration
  }

  /** The start given to the last fragment of `history`. */
  function LastStart(history: seq<Fragment>): (start: Time)
    requires history != []
    decreases |history|, 0
  {
    StartAt(Cursor(history[..|history| - 1]), history[|history| - 1].clock)
  }

  /** The start given to each fragment of `history`, in arrival order. */
  function Starts(history: seq<Fragment>): (starts: seq<Time>)
    ensures |starts| == |history|
  {
    if history == [] then [] else Starts(history[..|history| - 1]) + [LastStart(history)]
  }

  /** The i-th start is the one the rule gave when the i-th fragment arrived. */
  lemma {:induction false} StartOfPrefix(history: seq<Fragment>, i: nat)
    requires i < |history|
    ensures Starts(history)[i] == LastStart(history[..i + 1])
  {
    var front := history[..|history| - 1];
    if i < |history| - 1 {
      StartOfPrefix(front, i);
      assert front[..i + 1] == history[..i + 1];
    } else {
      assert history[..i + 1] == history;
    }
  }

  /** Scheduling one more fragment: its start follows the rule and the cursor never decreases. */
  lemma ScheduleOne(history: seq<Fragment>, f: Fragment)
    ensures LastStart(history + [f]) == StartAt(Cursor(history), f.clock)
    ensures Cursor(history + [f]) == LastStart(history + [f]) + f.duration
    ensures Cursor(history) <= Cursor(history + [f])
  {
    assert (history + [f])[..|history|] == history;
  }

  /** No fragment starts before the output clock at its arrival. */
  lemma StartsNotBeforeClock(history: seq<Fragment>, i: nat)
    requires i < |history|
    ensures history[i].clock <= Starts(history)[i]
  {
    StartOfPrefix(history, i);
    assert history[..i + 1][i] == history[i];
  }

  /** The first fragment after a reset starts exactly at the clock. */
  lemma FirstStartsAtClock(history: seq<Fragment>)
    requires history != []
    ensures Starts(history)[0] == history[0].clock
  {
    StartOfPrefix(history, 0);
    assert history[..1][..0] == [];
  }

  /** Two neighbouring prefixes of a history, stated once for the lemmas below. */
  lemma PrefixStep(history: seq<Fragment>, i: nat)
    requires 0 < i < |history|
    ensures history[..i + 1][..i] == history[..i]
    ensures history[..i][..i - 1] == history[..i - 1]
    ensures history[..i + 1][i] == history[i]
    ensures history[..i][i - 1] == history[i - 1]
  {
  }

  /**
   * Each start is the later of the previous fragment's end and the clock at
   * arrival: consecutive fragments never overlap, and they are gapless when
   * a fragment arrives before the previous one ends.
   */
  lemma Consecutive(history: seq<Fragment>, i: nat)
    requires 0 < i < |history|
    ensures Starts(history)[i] == StartAt(Starts(history)[i - 1] + history[i - 1].duration, history[i].clock)
    ensures Starts(history)[i - 1] + history[i - 1].duration <= Starts(history)[i]
    ensures history[i].clock <= Starts(history)[i - 1] + history[i - 1].duration
            ==> Starts(history)[i] == Starts(history)[i - 1] + history[i - 1].duration
  {
    StartOfPrefix(history, i);
    StartOfPrefix(history, i - 1);
    PrefixStep(history, i);
    var prev := history[..i];
    assert Cursor(prev) == LastStart(prev) + history[i - 1].duration;
  }

  /** Any later fragment starts after an earlier one has ended. */
  lemma {:induction false} NoOverlap(history: seq<Fragment>, i: nat, j: nat)
    requires i < j < |history|
    ensures Starts(history)[i] + history[i].duration <= Starts(history)[j]
    decreases j - i
  {
    Consecutive(history, j);
    if i < j - 1 {
      NoOverlap(history, i, j - 1);
    }
  }

  /** The cursor is the end of the last fragment scheduled since the reset. */
  lemma CursorIsLastEnd(history: seq<Fragment>)
    requires history != []
    ensures Cursor(history) == Starts(history)[|history| - 1] + history[|history| - 1].duration
  {
    StartOfPrefix(history, |history| - 1);
    assert history[..|history|] == history;
  }

  /**
   * Fragments of 100 ms scheduled at clock times 0, 50, 100 and 250 ms start
   * at 0, 100, 200 and 300 ms: each waits for the previous one to end.
   */
  lemma BurstScenario()
    ensures Starts([Fragment(0.0, 0.1), Fragment(0.05, 0.1), Fragment(0.1, 0.1), Fragment(0.25, 0.1)])
            == [0.0, 0.1, 0.2, 0.3]
  {
    var h := [Fragment(0.0, 0.1), Fragment(0.05, 0.1), Fragment(0.1, 0.1), Fragment(0.25, 0.1)];
    ScheduleOne([], h[0]);
    assert [] + [h[0]] == h[..1];
    ScheduleOne(h[..1], h[1]);
    assert h[..1] + [h[1]] == h[..2];
    ScheduleOne(h[..2], h[2]);
    assert h[..2] + [h[2]] == h[..3];
    ScheduleOne(h[..3], h[3]);
    assert h[..3] + [h[3]] == h;
    assert Starts(h[..1]) == [0.0];
    assert Starts(h[..2]) == [0.0, 0.1];
    assert Starts(h[..3]) == [0.0, 0.1, 0.2];
  }

  /**
   * The playback state a component keeps in refs: the cursor
   * (`nextStartTimeRef`) and the live set of scheduled sources (`sourcesRef`).
   * `issued` counts the sources created so far and stands in for the identity
   * of each new source object; `history` is the fragments scheduled since the
   * cursor was last reset.
   */
  class Player {
    var cursor: Time
    var live: set<SourceId>
    var issued: nat
    ghost var history: seq<Fragment>

    ghost predicate Valid()
      reads this
    {
      && cursor == Cursor(history)
      && (forall id :: id in live ==> id < issued)
    }

    constructor ()
      ensures Valid()
      ensures cursor == 0.0 && live == {} && issued == 0 && history == []
    {
      cursor := 0.0;
      live := {};
      issued := 0;
      history := [];
    }

    /**
     * Schedules one decoded fragment: it starts at the later of the cursor and
     * the clock, the cursor moves to its end, and its new source joins the
     * live set.
     */
    method Schedule(clock: Time, duration: Time) returns (id: SourceId, start: Time)
      requires Valid()
      modifies this
      ensures Valid()
      ensures start == StartAt(old(cursor), clock)
      ensures cursor == start + duration
      ensures history == old(history) + [Fragment(clock, duration)]
      ensures start == Starts(history)[|history| - 1]
      ensures id == old(issued) && issued == old(issued) + 1
      ensures id !in old(live) && live == old(live) + {id}
    {
      ScheduleOne(history, Fragment(clock, duration));
      cursor := StartAt(cursor, clock);
      start := cursor;
      cursor := cursor + duration;
      id := issued;
      issued := issued + 1;
      live := live + {id};
      history := history + [Fragment(clock, duration)];
    }

    /**
     * Only the first step of scheduling: the cursor moves up to the clock.
     * This is all that happens to a fragment the decoder rejects; it enters
     * the history as a fragment of duration 0 and no source is created.
     */
    method AlignToClock(clock: Time)
      requires Valid()
      modifies this
      ensures Valid()
      ensures cursor == StartAt(old(cursor), clock)
      ensures history == old(history) + [Fragment(clock, 0.0)]
      ensures live == old(live) && issued == old(issued)
    {
      ScheduleOne(history, Fragment(clock, 0.0));
      cursor := StartAt(cursor, clock);
      history := history + [Fragment(clock, 0.0)];
    }

    /**
     * The audio step of a message handler, once an output context exists:
     * a decoded fragment is scheduled on a new source; a rejected one only
     * moves the cursor up to the clock; no audio changes nothing. `threw`
     * reports that the step threw (a rejected decode or a missing `parts`
     * list), which ends the handler.
     */
    method Play(audio: InlineAudio, clock: Time) returns (playing: Option<Playing>, threw: bool)
      requires Valid()
      modifies this
      ensures Valid()
      ensures threw <==> audio.Undecodable? || audio.NoParts?
      ensures playing.Some? <==> audio.Decoded?
      ensures audio.Decoded? ==> && playing.value == Playing(old(issued), StartAt(old(cursor), clock), audio.duration)
                                 && old(issued) !in old(live)
                                 && live == old(live) + {old(issued)} && issued == old(issued) + 1
                                 && cursor == playing.value.at + audio.duration
                                 && history == old(history) + [Fragment(clock, audio.duration)]
      ensures audio.Undecodable? ==> && cursor == StartAt(old(cursor), clock)
                                     && history == old(history) + [Fragment(clock, 0.0)]
                                     && live == old(live) && issued == old(issued)
      ensures audio.NoAudio? || audio.NoParts? ==>
                && cursor == old(cursor) && history == old(history)
                && live == old(live) && issued == old(issued)
    {
      playing, threw := None, false;
      match audio
      case NoAudio =>
      case Decoded(duration) =>
        var id, start := Schedule(clock, duration);
        playing := Some(Playing(id, start, duration));
      case Undecodable =>
        AlignToClock(clock);
        threw := true;
      case NoParts =>
        threw := true;
    }

    /** A source has finished playing: exactly that source leaves the live set. */
    method Ended(id: SourceId)
      requires Valid()
      modifies this
      ensures Valid()
      ensures live == old(live) - {id}
      ensures cursor == old(cursor) && issued == old(issued) && history == old(history)
    {
      live := live - {id};
    }

    /**
     * Stops every live source, empties the live set and resets the cursor to 0.
     * Returns the sources that were stopped.
     */
    method Reset() returns (stopped: set<SourceId>)
      requires Valid()
      modifies this
      ensures Valid()
      ensures stopped == old(live)
      ensures live == {} && cursor == 0.0 && history == []
      ensures issued == old(issued)
    {
      stopped := live;
      live := {};
      cursor := 0.0;
      history := [];
    }
  }
}
