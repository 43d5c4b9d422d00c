/**
 * ResearchProvider of the client: the shared privacy mode, the research on
 * screen and a bounded newest-first history of completed research.
 */
module ResearchContext {
  import opened Values

  /** The history keeps at most this many entries. */
  const HISTORY_LIMIT: nat := 10

  /** A research record as the caller passes it: the fields of a JavaScript object. */
  type Record = map<string, Json>

  /** `{ ...research, timestamp }`: every field of the record, with `timestamp` set
      (overriding one the record may already carry). */
  function Stamped(research: Record, timestamp: string): (entry: Record)
    ensures entry.Keys == research.Keys + {"timestamp"}
    ensures entry["timestamp"] == JString(timestamp)
    ensures forall k :: k in research && k != "timestamp" ==> entry[k] == research[k]
  {
    research["timestamp" := JString(timestamp)]
  }

  /** `[entry, ...prev.slice(0, 9)]`: the new entry first, then the nine newest old ones. */
  function Prepended<T>(prev: seq<T>, entry: T): (r: seq<T>)
    ensures |r| == Min(|prev|, HISTORY_LIMIT - 1) + 1 && |r| <= HISTORY_LIMIT
    ensures r[0] == entry
    ensures forall i :: 1 <= i < |r| ==> r[i] == prev[i - 1]
  {
    [entry] + prev[..Min(|prev|, HISTORY_LIMIT - 1)]
  }

  /** The history left by adding `added` one after another to an empty history. */
  function History<T>(added: seq<T>): seq<T> {
    if added == [] then []
    else Prepended(History(added[..|added| - 1]), added[|added| - 1])
  }

  /** The history holds the ten most recently added entries, newest first. */
  lemma {:induction false} HistoryIsNewestFirst<T>(added: seq<T>)
    ensures |History(added)| == Min(|added|, HISTORY_LIMIT)
    ensures forall i :: 0 <= i < |History(added)| ==> History(added)[i] == added[|added| - 1 - i]
  {
    if added != [] {
      var prefix := added[..|added| - 1];
      HistoryIsNewestFirst(prefix);
      var h := History(added);
      forall i | 0 <= i < |h| ensures h[i] == added[|added| - 1 - i] {
        if i > 0 {
          assert h[i] == History(prefix)[i - 1];
          assert prefix[|prefix| - 1 - (i - 1)] == added[|added| - 1 - i];
        }
      }
    }
  }

  /** From nine or more entries, an addition leaves exactly ten: the new entry, then the
      first nine of the old list; whatever stood at index 9 or later is dropped. */
  lemma DropsOldest<T>(prev: seq<T>, entry: T)
    requires |prev| >= HISTORY_LIMIT - 1
    ensures |Prepended(prev, entry)| == HISTORY_LIMIT
    ensures Prepended(prev, entry)[1..] == prev[..HISTORY_LIMIT - 1]
  {
  }

  class ResearchProvider {
    /** 'secure' (local) or 'cloud' (GPT-4); any string the setter is given. */
    var privacyMode: string
    /** The research on screen; null when there is none. */
    var currentResearch: Json
    var researchHistory: seq<Record>

    ghost predicate Valid()
      reads this
    {
      |researchHistory| <= HISTORY_LIMIT
    }

    constructor ()
      ensures Valid()
      ensures privacyMode == "cloud" && currentResearch == JNull && researchHistory == []
    {
      privacyMode := "cloud";
      currentResearch := JNull;
      researchHistory := [];
    }

    /** `setPrivacyMode`, as exposed through the context value. */
    method SetPrivacyMode(mode: string)
      requires Valid()
      modifies this
      ensures Valid()
      ensures privacyMode == mode
      ensures currentResearch == old(currentResearch) && researchHistory == old(researchHistory)
    {
      privacyMode := mode;
    }

    /** `setCurrentResearch`, as exposed through the context value. */
    method SetCurrentResearch(research: Json)
      requires Valid()
      modifies this
      ensures Valid()
      ensures currentResearch == research
      ensures privacyMode == old(privacyMode) && researchHistory == old(researchHistory)
    {
      currentResearch := research;
    }

    /** `addToHistory`, with the ISO timestamp supplied by the caller. */
    method AddToHistory(research: Record, timestamp: string)
      requires Valid()
      modifies this
      ensures Valid()
      ensures researchHistory == Prepended(old(researchHistory), Stamped(research, timestamp))
      ensures privacyMode == old(privacyMode) && currentResearch == old(currentResearch)
    {
      researchHistory := Prepended(researchHistory, Stamped(research, timestamp));
    }

    /** `clearHistory`: empties the history whatever it held, so a second call changes nothing. */
    method ClearHistory()
      requires Valid()
      modifies this
      ensures Valid()
      ensures researchHistory == []
      ensures privacyMode == old(privacyMode) && currentResearch == old(currentResearch)
    {
      researchHistory := [];
    }
  }
}
