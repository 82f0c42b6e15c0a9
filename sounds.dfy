/**
 * Choosing the sound a counted click plays: a sound whose index is not among
 * the recently played ones, and the bounded history of those indices.
 */
module Sounds {

  import Wrappers

  /** The number of click sounds loaded at start-up. */
  const SOUND_COUNT: nat := 3

  /** The number of recent sounds remembered. */
  const HISTORY_LENGTH: nat := 2

  /** The indices below `n` that do not occur in `history`, in increasing order. */
  function Candidates(n: nat, history: seq<nat>): (c: seq<nat>)
    ensures forall i :: 0 <= i < |c| ==> c[i] < n && c[i] !in history
    ensures forall k :: 0 <= k < n && k !in history ==> k in c
    ensures forall i, j :: 0 <= i < j < |c| ==> c[i] < c[j]
    decreases n
  {
    if n == 0 then []
    else Candidates(n - 1, history) + (if n - 1 in history then [] else [n - 1])
  }

  /** A history is well formed when it is short, in range and has no repeats. */
  predicate HistoryOk(history: seq<nat>) {
    && |history| <= HISTORY_LENGTH
    && (forall i :: 0 <= i < |history| ==> history[i] < SOUND_COUNT)
    && (forall i, j :: 0 <= i < j < |history| ==> history[i] != history[j])
  }

  /** With three sounds and at most two remembered, some sound is always available. */
  lemma CandidatesNonEmpty(history: seq<nat>)
    requires |history| <= HISTORY_LENGTH
    ensures |Candidates(SOUND_COUNT, history)| >= 1
  {
    var k: nat := if 0 !in history then 0 else if 1 !in history then 1 else 2;
    if k == 2 {
      assert |history| == 2 && ((history[0] == 0 && history[1] == 1) || (history[0] == 1 && history[1] == 0));
    }
    assert k !in history;
    assert k in Candidates(SOUND_COUNT, history);
  }

  /** The history after `next` is played: appended, then the oldest dropped past two entries. */
  function PushHistory(history: seq<nat>, next: nat): (h: seq<nat>)
    ensures |history| <= HISTORY_LENGTH ==> |h| == Wrappers.Min(|history| + 1, HISTORY_LENGTH)
    ensures |h| >= 1 && h[|h| - 1] == next
    ensures forall i :: 0 <= i < |h| ==> h[i] == next || h[i] in history
    ensures HistoryOk(history) && next < SOUND_COUNT && next !in history ==> HistoryOk(h)
    ensures |history| <= HISTORY_LENGTH ==> h == (history + [next])[|history| + 1 - |h|..]
  {
    var appended := history + [next];
    if |appended| > HISTORY_LENGTH then appended[1..] else appended
  }

  /** The sound a counted click plays; `pick` stands for the random choice among the candidates. */
  function ChooseSound(history: seq<nat>, pick: nat): (next: nat)
    requires |history| <= HISTORY_LENGTH
    ensures next < SOUND_COUNT && next !in history
  {
    CandidatesNonEmpty(history);
    var c := Candidates(SOUND_COUNT, history);
    c[pick % |c|]
  }

  lemma ModSmall(i: nat, n: nat)
    requires i < n
    ensures i % n == i
  {
  }

  /** Every candidate sound is the outcome of some random choice. */
  lemma ChooseSoundCoversCandidates(history: seq<nat>, k: nat)
    requires |history| <= HISTORY_LENGTH
    requires k < SOUND_COUNT && k !in history
    ensures exists pick: nat :: ChooseSound(history, pick) == k
  {
    var c := Candidates(SOUND_COUNT, history);
    assert k in c;
    var i: nat :| i < |c| && c[i] == k;
    ModSmall(i, |c|);
    assert ChooseSound(history, i) == k;
  }
}
