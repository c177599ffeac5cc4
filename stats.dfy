/**
 * `LocalizerStats`: how many localizations completed and how many of them found the map.
 * Both counters start at zero; each completed localization adds one attempt, and one
 * success exactly when the returned map handle is non-negative.
 */
module Stats {

  datatype LocalizerStats = LocalizerStats(attempts: int, successes: int)

  /** `LocalizerStats.init()`: both counters zero. */
  const Initial := LocalizerStats(0, 0)

  /** The two counter updates one completed localization makes. */
  function Record(s: LocalizerStats, handle: int): (r: LocalizerStats)
    ensures r.attempts == s.attempts + 1
    ensures r.successes == s.successes + 1 <==> handle >= 0
    ensures handle < 0 ==> r.successes == s.successes
    ensures s.successes <= s.attempts ==> r.successes <= r.attempts
  {
    var s' := s.(attempts := s.attempts + 1);
    if handle >= 0 then s'.(successes := s'.successes + 1) else s'
  }

  /** The stats after the given map handles were returned, in this order. */
  function Replay(handles: seq<int>): LocalizerStats {
    if handles == [] then Initial
    else Record(Replay(handles[..|handles| - 1]), handles[|handles| - 1])
  }

  /** How many of the handles denote a success. */
  function CountSuccesses(handles: seq<int>): nat {
    if handles == [] then 0
    else (if handles[0] >= 0 then 1 else 0) + CountSuccesses(handles[1..])
  }

  lemma {:induction false} CountSuccessesAppend(handles: seq<int>, h: int)
    ensures CountSuccesses(handles + [h]) == CountSuccesses(handles) + (if h >= 0 then 1 else 0)
  {
    if handles != [] {
      assert (handles + [h])[1..] == handles[1..] + [h];
      CountSuccessesAppend(handles[1..], h);
    }
  }

  /** At most every result is a success, and all are exactly when no handle is negative. */
  lemma {:induction false} CountSuccessesBounds(handles: seq<int>)
    ensures CountSuccesses(handles) <= |handles|
    ensures CountSuccesses(handles) == |handles| <==> forall i :: 0 <= i < |handles| ==> handles[i] >= 0
    ensures CountSuccesses(handles) == 0 <==> forall i :: 0 <= i < |handles| ==> handles[i] < 0
  {
    if handles != [] {
      CountSuccessesBounds(handles[1..]);
      assert forall i :: 1 <= i < |handles| ==> handles[i] == handles[1..][i - 1];
    }
  }

  /** After N results of which S have a non-negative handle, the stats are exactly (N, S). */
  lemma {:induction false} ReplayCounts(handles: seq<int>)
    ensures Replay(handles) == LocalizerStats(|handles|, CountSuccesses(handles))
  {
    if handles != [] {
      var prefix, last := handles[..|handles| - 1], handles[|handles| - 1];
      ReplayCounts(prefix);
      CountSuccessesAppend(prefix, last);
      assert prefix + [last] == handles;
    }
  }

  /** Whatever the results, the counters stay ordered: 0 <= successes <= attempts. */
  lemma SuccessesNeverExceedAttempts(handles: seq<int>)
    ensures 0 <= Replay(handles).successes <= Replay(handles).attempts
  {
    ReplayCounts(handles);
    CountSuccessesBounds(handles);
  }
}
