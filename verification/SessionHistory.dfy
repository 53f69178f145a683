/** A chat session's rolling history: capped appends, clears, and summaries that replace all but the last
    six messages. A summary is written by a model call, during which other turns may append or clear. */
module SessionHistory {
  import opened Wrappers

  type TurnId = nat

  /** A message, by its number in the transcript, or a summary of earlier ones; with their lengths. */
  datatype Entry = Said(number: nat, chars: nat) | Summary(index: nat, length: nat)

  /** What a running summarization read: the history, and how far transcript, clears and summaries had come. */
  datatype Snapshot = Snapshot(entries: seq<Entry>, said: nat, clearedAt: nat, clears: nat, landed: nat)

  /** said: messages ever appended. clearedAt: how many of them the last clear wiped. clears: clears ever.
      landed: summaries ever put into the history. */
  datatype Session = Session(history: seq<Entry>, said: nat, clearedAt: nat, clears: nat, landed: nat,
      running: map<TurnId, Snapshot>)

  datatype Event =
    | Append(chars: nat)
    | Clear
    | BeginSummary(turn: TurnId)
    | EndSummary(turn: TurnId, summary: Option<nat>)

  const MaxHistory: nat := 20
  const KeepVerbatim: nat := 6

  function Trimmed(h: seq<Entry>): seq<Entry> {
    if |h| > MaxHistory then h[|h| - MaxHistory..] else h
  }

  /** A summary in front of the last six entries. */
  function Condensed(h: seq<Entry>, index: nat, length: nat): seq<Entry>
    requires |h| > KeepVerbatim
  {
    [Summary(index, length)] + h[|h| - KeepVerbatim..]
  }

  function Initial(): Session { Session([], 0, 0, 0, 0, map[]) }

  function Apply(s: Session, ev: Event): Session {
    match ev
    case Append(chars) => s.(history := Trimmed(s.history + [Said(s.said, chars)]), said := s.said + 1)
    case Clear => s.(history := [], clearedAt := s.said, clears := s.clears + 1)
    case BeginSummary(turn) =>
      if |s.history| <= KeepVerbatim then s
      else s.(running := s.running[turn := Snapshot(s.history, s.said, s.clearedAt, s.clears, s.landed)])
    case EndSummary(turn, summary) =>
      if turn !in s.running then s
      else
        var s1 := s.(running := s.running - {turn});
        var entries := s.running[turn].entries;
        if summary.None? || |entries| <= KeepVerbatim then s1
        else s1.(history := Condensed(entries, s.landed, summary.value), landed := s.landed + 1)
  }

  function Run(evs: seq<Event>): Session
    decreases |evs|
  {
    if evs == [] then Initial() else Apply(Run(evs[..|evs| - 1]), evs[|evs| - 1])
  }

  // ---- Shape ----

  /** At most one summary, at the head; at most twenty entries. */
  predicate Shaped(h: seq<Entry>) {
    |h| <= MaxHistory && forall i :: 0 < i < |h| ==> h[i].Said?
  }

  /** After the summary, if there is one, come the latest messages since the last clear, without a gap. */
  predicate Follows(h: seq<Entry>, said: nat, clearedAt: nat) {
    && (forall i :: 0 <= i < |h| && h[i].Said? ==> h[i].number == said - |h| + i && h[i].number >= clearedAt)
    && clearedAt <= said
  }

  predicate AllShaped(s: Session) {
    Shaped(s.history) && forall t :: t in s.running ==>
      Shaped(s.running[t].entries) && |s.running[t].entries| > KeepVerbatim
  }

  lemma StepShaped(s: Session, ev: Event)
    requires AllShaped(s)
    ensures AllShaped(Apply(s, ev))
  {
  }

  /** Whatever interleaves: one summary at most, in front, and never more than twenty entries. */
  lemma {:induction false} HistoryShaped(evs: seq<Event>)
    ensures AllShaped(Run(evs)) && |Run(evs).history| <= 20
    decreases |evs|
  {
    if evs != [] {
      HistoryShaped(evs[..|evs| - 1]);
      StepShaped(Run(evs[..|evs| - 1]), evs[|evs| - 1]);
    }
  }

  // ---- Contiguity ----

  predicate Continuous(s: Session) {
    && Follows(s.history, s.said, s.clearedAt)
    && forall t :: t in s.running ==>
      && s.running[t].said <= s.said && s.running[t].clearedAt <= s.clearedAt
      && Follows(s.running[t].entries, s.running[t].said, s.running[t].clearedAt)
      && (s.running[t].clearedAt == s.clearedAt || s.clearedAt >= s.running[t].said)
  }

  /** Nothing has been appended to or cleared from the session since the turn read its history. */
  predicate Undisturbed(s: Session, turn: TurnId)
    requires turn in s.running
  {
    s.running[turn].said == s.said && s.running[turn].clearedAt == s.clearedAt
  }

  predicate SafeStep(s: Session, ev: Event) {
    ev.EndSummary? && ev.turn in s.running && ev.summary.Some? ==> Undisturbed(s, ev.turn)
  }

  lemma StepContinuous(s: Session, ev: Event)
    requires AllShaped(s) && Continuous(s) && SafeStep(s, ev)
    ensures Continuous(Apply(s, ev))
  {
  }

  /** A finished summary leaves the history a gapless run of the latest messages since the last clear if
      and only if nothing was appended or cleared while the model wrote it: appended messages vanish,
      cleared ones come back. */
  lemma SummaryContinuousIff(s: Session, turn: TurnId, length: nat)
    requires AllShaped(s) && Continuous(s) && turn in s.running
    ensures var s' := Apply(s, EndSummary(turn, Some(length)));
      Follows(s'.history, s'.said, s'.clearedAt) <==> Undisturbed(s, turn)
  {
    var snap := s.running[turn];
    var s' := Apply(s, EndSummary(turn, Some(length)));
    var last := snap.entries[|snap.entries| - 1];
    assert last.Said? && last.number == snap.said - 1;
    assert s'.history[KeepVerbatim] == last;
    var first := snap.entries[|snap.entries| - KeepVerbatim];
    assert s'.history[1] == first && first.Said?;
  }

  /** In a run where no summary lands on a session disturbed meanwhile, the history is always gapless. */
  lemma {:induction false} HistoryContinuous(evs: seq<Event>)
    requires forall k :: 0 <= k < |evs| ==> SafeStep(Run(evs[..k]), evs[k])
    ensures Continuous(Run(evs)) && AllShaped(Run(evs))
    decreases |evs|
  {
    HistoryShaped(evs);
    if evs != [] {
      var front := evs[..|evs| - 1];
      forall k | 0 <= k < |front| ensures SafeStep(Run(front[..k]), front[k]) {
        assert front[..k] == evs[..k] && SafeStep(Run(evs[..k]), evs[k]);
      }
      HistoryContinuous(front);
      StepContinuous(Run(front), evs[|evs| - 1]);
    }
  }

  // ---- What goes to the model ----

  /** A turn whose summarization read the history: what goes to the model when the completion is back. With
      a summary it is the new history without its last entry, otherwise what had been read without it. */
  function ForModel(s: Session, turn: TurnId, summary: Option<nat>): seq<Entry>
    requires turn in s.running && |s.running[turn].entries| > KeepVerbatim
  {
    var entries := s.running[turn].entries;
    var h := if summary.Some? then Condensed(entries, s.landed, summary.value) else entries;
    h[..|h| - 1]
  }

  /** The user message of the turn: the last entry it read. */
  function Pending(s: Session, turn: TurnId): Entry
    requires turn in s.running && |s.running[turn].entries| > KeepVerbatim
  {
    s.running[turn].entries[|s.running[turn].entries| - 1]
  }

  /** Nothing was appended, cleared or summarized since the turn read the history. */
  predicate Unchanged(s: Session, turn: TurnId)
    requires turn in s.running
  {
    s.running[turn].said == s.said && s.running[turn].clears == s.clears && s.running[turn].landed == s.landed
  }

  /** Entries are numbered from the counters, so a history that went on differs from what was read before. */
  predicate NumbersBelow(h: seq<Entry>, said: nat, landed: nat) {
    forall i :: 0 <= i < |h| ==> if h[i].Said? then h[i].number < said else h[i].index < landed
  }

  /** A sign that the history went on after the snapshot. */
  predicate WentOn(h: seq<Entry>, snap: Snapshot) {
    || h == []
    || (h[|h| - 1].Said? && h[|h| - 1].number >= snap.said)
    || (h[0].Summary? && h[0].index >= snap.landed)
  }

  predicate Traced(s: Session, turn: TurnId)
    requires turn in s.running
  {
    var snap := s.running[turn];
    && |snap.entries| > KeepVerbatim && NumbersBelow(snap.entries, snap.said, snap.landed)
    && snap.said <= s.said && snap.clears <= s.clears && snap.landed <= s.landed
    && (if Unchanged(s, turn) then s.history == snap.entries else WentOn(s.history, snap))
  }

  predicate AllTraced(s: Session) {
    && NumbersBelow(s.history, s.said, s.landed)
    && forall t :: t in s.running ==> Traced(s, t)
  }

  lemma StepTraced(s: Session, ev: Event)
    requires AllTraced(s)
    ensures AllTraced(Apply(s, ev))
  {
  }

  lemma {:induction false} HistoryTraced(evs: seq<Event>)
    ensures AllTraced(Run(evs))
    decreases |evs|
  {
    if evs != [] {
      HistoryTraced(evs[..|evs| - 1]);
      StepTraced(Run(evs[..|evs| - 1]), evs[|evs| - 1]);
    }
  }

  /** In every interleaving, when a turn's completion is back, what goes to the model plus the turn's user
      message is exactly the session's history if and only if the completion gave a summary, or nothing was
      appended, cleared or summarized while it ran. */
  lemma SentIsHistoryIff(evs: seq<Event>, turn: TurnId, summary: Option<nat>)
    requires turn in Run(evs).running
    ensures var s := Run(evs);
      && |s.running[turn].entries| > KeepVerbatim
      && (ForModel(s, turn, summary) + [Pending(s, turn)] == Apply(s, EndSummary(turn, summary)).history
          <==> summary.Some? || Unchanged(s, turn))
  {
    HistoryTraced(evs);
    assert Traced(Run(evs), turn);
    SentIsHistory(Run(evs), turn, summary);
  }

  lemma LastRejoins(h: seq<Entry>)
    requires h != []
    ensures h[..|h| - 1] + [h[|h| - 1]] == h
  {
  }

  lemma SentIsHistory(s: Session, turn: TurnId, summary: Option<nat>)
    requires turn in s.running && Traced(s, turn)
    ensures ForModel(s, turn, summary) + [Pending(s, turn)] == Apply(s, EndSummary(turn, summary)).history
      <==> summary.Some? || Unchanged(s, turn)
  {
    var snap := s.running[turn];
    if summary.Some? {
      LastRejoins(Condensed(snap.entries, s.landed, summary.value));
    } else {
      LastRejoins(snap.entries);
      assert !WentOn(snap.entries, snap);
    }
  }

  function Numbered(n: nat): seq<Entry> { if n == 0 then [] else Numbered(n - 1) + [Said(n - 1, 1)] }

  function Ones(n: nat): seq<Event> { seq(n, i => Append(1)) }

  lemma {:induction false} SevenSaid(n: nat)
    requires n <= 7
    ensures Run(Ones(n)) == Session(Numbered(n), n, 0, 0, 0, map[]) && |Numbered(n)| == n
    decreases n
  {
    if n > 0 {
      SevenSaid(n - 1);
      assert Ones(n)[..n - 1] == Ones(n - 1);
    }
  }

  lemma {:induction false} NumberedAt(n: nat)
    ensures |Numbered(n)| == n && forall i :: 0 <= i < n ==> Numbered(n)[i] == Said(i, 1)
  {
    if n > 0 { NumberedAt(n - 1); }
  }

  /** A message said while the summary of its session is being written is lost from the history. */
  lemma AppendedMessageVanishes()
    ensures var s := Run(Ones(7) + [BeginSummary(0)] + [Append(9)] + [EndSummary(0, Some(3))]);
      s.said == 8 && Said(7, 9) !in s.history && |s.history| == 7
  {
    SevenSaid(7);
    var a := Ones(7);
    assert (a + [BeginSummary(0)])[..7] == a;
    assert (a + [BeginSummary(0)] + [Append(9)])[..8] == a + [BeginSummary(0)];
    assert (a + [BeginSummary(0)] + [Append(9)] + [EndSummary(0, Some(3))])[..9] == a + [BeginSummary(0)] + [Append(9)];
    var s := Run(a + [BeginSummary(0)]);
    assert s.running[0].entries == Numbered(7);
    NumberedAt(7);
  }

  // ---- When to summarize ----

  const DefaultContextWindow: int := 4096
  const SmallWindow: int := 4096
  const LargeWindow: int := 131072

  function ContextWindow(declared: Option<int>): (w: int)
    ensures w > 0
  {
    if declared.Some? && declared.value > 0 then declared.value else DefaultContextWindow
  }

  lemma ContextWindowIs(declared: int)
    ensures ContextWindow(None) == 4096 && ContextWindow(Some(declared)) == if declared > 0 then declared else 4096
  {
  }

  /** The share of the window at which older history is summarized. */
  function Threshold(window: int): real {
    if window <= SmallWindow then 0.50
    else if window >= LargeWindow then 0.75
    else 0.50 + (window - SmallWindow) as real / (LargeWindow - SmallWindow) as real * (0.75 - 0.50)
  }

  /** Between a half and three quarters, never falling as windows grow; so the trigger point itself grows. */
  lemma ThresholdScales(a: int, b: int)
    requires 0 < a <= b
    ensures 0.50 <= Threshold(a) <= Threshold(b) <= 0.75
    ensures a as real * Threshold(a) <= b as real * Threshold(b)
  {
    var span := (LargeWindow - SmallWindow) as real;
    assert SmallWindow < a < LargeWindow ==> 0.0 < (a - SmallWindow) as real / span < 1.0;
    assert SmallWindow < b < LargeWindow ==> 0.0 < (b - SmallWindow) as real / span < 1.0;
    assert (a - SmallWindow) as real / span <= (b - SmallWindow) as real / span;
    ProductGrows(a as real, b as real, Threshold(a), Threshold(b));
  }

  /** A half up to a window of 4096, three quarters from 131072 on, and a straight line between. */
  lemma ThresholdIs(a: int, b: int)
    ensures a <= 4096 ==> Threshold(a) == 0.5
    ensures a >= 131072 ==> Threshold(a) == 0.75
    ensures 4096 <= a && a < b && b <= 131072 ==>
      (Threshold(b) - Threshold(a)) * 126976.0 == (b - a) as real * 0.25
  {
    if 4096 <= a < b <= 131072 {
      OnTheLine(a);
      OnTheLine(b);
    }
  }

  lemma OnTheLine(w: int)
    requires 4096 <= w <= 131072
    ensures (Threshold(w) - 0.5) * 126976.0 == (w - 4096) as real * 0.25
  {
    var x := (w - SmallWindow) as real / (LargeWindow - SmallWindow) as real;
    assert x * 126976.0 == (w - 4096) as real;
  }

  lemma ProductGrows(a: real, b: real, x: real, y: real)
    requires 0.0 <= a <= b && 0.0 <= x <= y
    ensures a * x <= b * y
  {
  }

  function Chars(e: Entry): nat { if e.Said? then e.chars else e.length }

  function TotalChars(h: seq<Entry>): nat
    decreases |h|
  {
    if h == [] then 0 else TotalChars(h[..|h| - 1]) + Chars(h[|h| - 1])
  }

  /** Four characters to a token, rounded up. */
  function EstimatedTokens(fixedChars: nat, h: seq<Entry>): nat { (fixedChars + TotalChars(h) + 3) / 4 }

  lemma CharsGrow(h: seq<Entry>, e: Entry)
    ensures TotalChars([]) == 0
    ensures TotalChars(h + [e])
      == TotalChars(h) + match e case Said(_, chars) => chars case Summary(_, length) => length
  {
    assert (h + [e])[..|h|] == h;
  }

  /** The least number of tokens with room for all characters at four to a token. */
  lemma TokensAre(fixedChars: nat, h: seq<Entry>)
    ensures var tokens := EstimatedTokens(fixedChars, h);
      4 * tokens >= fixedChars + TotalChars(h) && 4 * (tokens - 1) < fixedChars + TotalChars(h)
  {
  }

  /** An append keeps the newest twenty entries, the new one last. */
  lemma AppendKeepsTwenty(s: Session, chars: nat)
    ensures var all, h := s.history + [Said(s.said, chars)], Apply(s, Append(chars)).history;
      |h| == (if |all| < 20 then |all| else 20) && h == all[|all| - |h|..]
  {
  }

  /** The request is past its share of the window. */
  predicate Over(tokens: nat, window: int) {
    tokens as real > window as real * Threshold(window)
  }

  // ---- The session object ----

  class AgentConversationSession {
    var history: seq<Entry>
    /** Counters that only number the entries. */
    var said: nat
    var clearedAt: nat
    var clears: nat
    var landed: nat
    var lastRequestEstimatedTokens: nat
    var lastContextWindowTokens: int

    /** The session with no summarization under way. */
    function Model(): Session
      reads this
    {
      Session(history, said, clearedAt, clears, landed, map[])
    }

    constructor ()
      ensures Model() == Initial()
    {
      history, said, clearedAt, clears, landed := [], 0, 0, 0, 0;
      lastRequestEstimatedTokens, lastContextWindowTokens := 0, 0;
    }

    /** Records the next message of the transcript. */
    method Append(chars: nat)
      modifies this`history, this`said
      ensures Model() == Apply(old(Model()), Event.Append(chars))
    {
      history := history + [Said(said, chars)];
      said := said + 1;
      Trim();
    }

    method Trim()
      modifies this`history
      ensures history == Trimmed(old(history))
    {
      while |history| > MaxHistory
        invariant |history| <= |old(history)| && history == old(history)[|old(history)| - |history|..]
        invariant |old(history)| <= MaxHistory ==> history == old(history)
        invariant |old(history)| > MaxHistory ==> |history| >= MaxHistory
      {
        history := history[1..];
      }
    }

    method ClearHistory()
      modifies this`history, this`clearedAt, this`clears
      ensures Model() == Apply(old(Model()), Clear)
    {
      while history != []
        invariant clearedAt == old(clearedAt) && clears == old(clears)
        decreases |history|
      {
        history := history[1..];
      }
      clearedAt, clears := said, clears + 1;
    }

    /** The model's summary replaces everything but the last six entries; None is a failed or blank one. */
    method TrySummarizeOlderHistory(completion: Option<nat>) returns (summarized: bool)
      modifies this`history, this`landed
      ensures summarized <==> |old(history)| > KeepVerbatim && completion.Some?
      ensures history == if summarized then Condensed(old(history), old(landed), completion.value) else old(history)
      ensures Model() == Apply(Apply(old(Model()), BeginSummary(0)), EndSummary(0, completion))
    {
      var all := history;
      if |all| <= KeepVerbatim {
        return false;
      }
      var toKeep := all[|all| - KeepVerbatim..];
      if completion.None? {
        return false;
      }
      while history != []
        invariant landed == old(landed)
        decreases |history|
      {
        history := history[1..];
      }
      history := history + [Summary(landed, completion.value)];
      for i := 0 to |toKeep|
        invariant landed == old(landed) && history == [Summary(landed, completion.value)] + toKeep[..i]
      {
        history := history + [toKeep[i]];
      }
      landed := landed + 1;
      summarized := true;
    }

    method HistoryExcludingLastMessage() returns (h: seq<Entry>)
      ensures h == if history == [] then [] else history[..|history| - 1]
    {
      h := history;
      if |h| > 0 {
        h := h[..|h| - 1];
      }
    }

    /** The history for one turn, whose user message is the last entry. It is everything before that
        message; it has been condensed exactly when the full request was over the threshold, there was more
        than the six entries kept and the completion succeeded; and the recorded estimate is that of the
        request as it goes out. */
    method PrepareHistoryForModel(fixedChars: nat, declaredWindow: Option<int>, agentKeepsTranscript: bool,
        completion: Option<nat>)
      returns (forModel: seq<Entry>, summarized: bool)
      requires history != []
      modifies this`history, this`landed, this`lastRequestEstimatedTokens, this`lastContextWindowTokens
      ensures history != [] && forModel + [history[|history| - 1]] == history
      ensures history[|history| - 1] == old(history)[|old(history)| - 1]
      ensures var window := ContextWindow(declaredWindow); var before := old(history)[..|old(history)| - 1];
        summarized <==>
          && !agentKeepsTranscript && |before| > 6 && completion.Some?
          && EstimatedTokens(fixedChars, before) as real > window as real * Threshold(window)
      ensures history == if summarized then Condensed(old(history), old(landed), completion.value) else old(history)
      ensures lastRequestEstimatedTokens == EstimatedTokens(fixedChars, forModel)
        && lastContextWindowTokens == ContextWindow(declaredWindow)
    {
      var window := ContextWindow(declaredWindow);
      forModel := HistoryExcludingLastMessage();
      var estimated := EstimatedTokens(fixedChars, forModel);
      summarized := false;
      if !agentKeepsTranscript && Over(estimated, window) && |forModel| > KeepVerbatim {
        summarized := TrySummarizeOlderHistory(completion);
        if summarized {
          forModel := HistoryExcludingLastMessage();
          estimated := EstimatedTokens(fixedChars, forModel);
        }
      }
      lastContextWindowTokens := window;
      lastRequestEstimatedTokens := estimated;
    }
  }
}
